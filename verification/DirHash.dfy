/** `get_dir_hash`: which files of a directory enter its digest, and what the digest determines. */
module DirHash {
  import opened Text

  /** A file as `os.walk` meets it: the directories leading to it, its name, and its own digest ("" if unreadable). */
  datatype Found = Found(dirs: seq<string>, name: string, digest: string)

  /** A retained file: its path relative to the directory, and its digest. */
  datatype Line = Line(path: string, digest: string)

  /** The three kinds of result; `Sha` stands for the SHA-256 of a text. */
  datatype Digest = NoDirectory | NoFiles | Sha(text: string)

  predicate StartsWithDot(s: string) {
    s != "" && s[0] == '.'
  }

  predicate EndsWith(s: string, t: string) {
    |t| <= |s| && s[|s| - |t|..] == t
  }

  const PRUNED := ["target", ".tmp_versions", "__pycache__"]
  const SUFFIXES := [".o", ".ko", ".mod", ".mod.c", ".o.d", ".so", ".img", "modules.order", "Module.symvers", ".pyc"]
  const NAMES := ["test_alloc", "test_bounds", "test_zig", "test_rust"]

  predicate Entered(dir: string) {
    !StartsWithDot(dir) && dir !in PRUNED
  }

  predicate Retained(f: Found) {
    && (forall d <- f.dirs :: Entered(d))
    && !StartsWithDot(f.name)
    && (forall t <- SUFFIXES :: !EndsWith(f.name, t))
    && f.name !in NAMES
    && f.digest != ""
  }

  function RelPath(dirs: seq<string>, name: string): string {
    if dirs == [] then name else dirs[0] + "/" + RelPath(dirs[1..], name)
  }

  function LineOf(f: Found): Line {
    Line(RelPath(f.dirs, f.name), f.digest)
  }

  function Lines(walk: seq<Found>): seq<Line> {
    if walk == [] then []
    else Lines(walk[..|walk| - 1]) + if Retained(walk[|walk| - 1]) then [LineOf(walk[|walk| - 1])] else []
  }

  // Sorting by path

  /** The order of strings by code points. */
  predicate Less(a: string, b: string) {
    b != "" && (a == "" || a[0] < b[0] || (a[0] == b[0] && Less(a[1..], b[1..])))
  }

  lemma {:induction false} LessIsStrict(a: string, b: string, c: string)
    ensures !Less(a, a)
    ensures Less(a, b) && Less(b, c) ==> Less(a, c)
    ensures a != b ==> Less(a, b) || Less(b, a)
    decreases |a|
  {
    if a != "" {
      if b != "" && c != "" {
        LessIsStrict(a[1..], b[1..], c[1..]);
        assert a[0] == b[0] && a[1..] == b[1..] ==> a == [b[0]] + b[1..] == b;
      } else if b != "" {
        LessIsStrict(a[1..], b[1..], "");
        assert a[0] == b[0] && a[1..] == b[1..] ==> a == [b[0]] + b[1..] == b;
      } else {
        LessIsStrict(a[1..], "", "");
      }
    }
  }

  ghost predicate Sorted(ls: seq<Line>) {
    forall j, k :: 0 <= j < k < |ls| ==> Less(ls[j].path, ls[k].path)
  }

  ghost predicate DistinctPaths(ls: seq<Line>) {
    forall j, k :: 0 <= j < k < |ls| ==> ls[j].path != ls[k].path
  }

  function Insert(x: Line, ls: seq<Line>): (r: seq<Line>)
    ensures forall l :: l in r <==> l == x || l in ls
  {
    if ls == [] || Less(x.path, ls[0].path) then [x] + ls else [ls[0]] + Insert(x, ls[1..])
  }

  /** `file_hashes.sort(key=...)`. */
  function Sort(ls: seq<Line>): (r: seq<Line>)
    ensures forall l :: l in r <==> l in ls
  {
    if ls == [] then [] else Insert(ls[|ls| - 1], Sort(ls[..|ls| - 1]))
  }

  lemma {:induction false} InsertSorted(x: Line, ls: seq<Line>)
    requires Sorted(ls) && forall l <- ls :: l.path != x.path
    ensures Sorted(Insert(x, ls))
    decreases |ls|
  {
    if ls != [] {
      LessIsStrict(x.path, ls[0].path, "");
      if Less(x.path, ls[0].path) {
        forall k | 0 <= k < |ls| ensures Less(x.path, ls[k].path) {
          LessIsStrict(x.path, ls[0].path, ls[k].path);
        }
      } else {
        InsertSorted(x, ls[1..]);
        var rest := Insert(x, ls[1..]);
        assert ls[0] in ls;
        forall k | 0 <= k < |rest| ensures Less(ls[0].path, rest[k].path) {
          assert rest[k] in rest;
        }
      }
    }
  }

  lemma {:induction false} SortSorted(ls: seq<Line>)
    requires DistinctPaths(ls)
    ensures Sorted(Sort(ls))
    decreases |ls|
  {
    if ls != [] {
      SortSorted(ls[..|ls| - 1]);
      InsertSorted(ls[|ls| - 1], Sort(ls[..|ls| - 1]));
    }
  }

  lemma HasElement(ls: seq<Line>)
    requires ls != []
    ensures exists l :: l in ls
  {
    assert ls[0] in ls;
  }

  /** A strictly sorted sequence is determined by its elements. */
  lemma {:induction false} SortedUnique(a: seq<Line>, b: seq<Line>)
    requires Sorted(a) && Sorted(b) && forall l :: l in a <==> l in b
    ensures a == b
    decreases |a|
  {
    if a == [] {
      if b != [] {
        HasElement(b);
        assert false;
      }
    } else {
      assert a[0] in b && b[0] in a;
      LessIsStrict(a[0].path, b[0].path, a[0].path);
      assert a[0] == b[0];
      forall l ensures l in a[1..] <==> l in b[1..] {
        LessIsStrict(a[0].path, a[0].path, a[0].path);
        assert l in a <==> l == a[0] || l in a[1..];
        assert l in b <==> l == b[0] || l in b[1..];
        assert a[0] !in a[1..] && b[0] !in b[1..];
      }
      SortedUnique(a[1..], b[1..]);
    }
  }

  // The text that is digested

  function Encode(ls: seq<Line>): string {
    if ls == [] then "" else ls[0].path + ":" + ls[0].digest + "\n" + Encode(ls[1..])
  }

  /** Whether a record of the text may end at `k`: there is a colon before, and behind the last one
      something without a newline. */
  predicate Ends(text: string, k: nat)
    requires k <= |text|
  {
    var m := LastBefore(text, ':', k);
    0 <= m < k - 1 && forall j :: m < j < k ==> text[j] != '\n'
  }

  /** The first newline at or after `i` where a record may end. */
  function RecordEnd(text: string, i: nat): (k: nat)
    requires i <= |text|
    ensures i <= k <= |text| && (k < |text| ==> text[k] == '\n' && Ends(text, k))
    ensures forall j {:trigger Ends(text, j)} :: i <= j < k ==> !(text[j] == '\n' && Ends(text, j))
    decreases |text| - i
  {
    if i == |text| || (text[i] == '\n' && Ends(text, i)) then i else RecordEnd(text, i + 1)
  }

  /** Splitting the text at the newlines where a record may end, and each record at its last colon. */
  function Decode(text: string): seq<Line>
    decreases |text|
  {
    var k := RecordEnd(text, 0);
    if k == |text| then []
    else
      var m := LastBefore(text, ':', k);
      [Line(text[..m], text[m + 1..k])] + Decode(text[k + 1..])
  }

  /** A path of the form `a:h` newline `b`, where `h` could be a digest: it can pass for the end of
      one record and the start of another. */
  predicate HidesRecord(path: string) {
    exists k {:trigger Ends(path, k)} :: 0 <= k < |path| && path[k] == '\n' && Ends(path, k)
  }

  /** What a hexadecimal digest is: not empty, with neither newline nor colon. */
  predicate DigestLike(h: string) {
    h != "" && '\n' !in h && ':' !in h
  }

  ghost predicate Digested(ls: seq<Line>) {
    forall l <- ls :: DigestLike(l.digest)
  }

  ghost predicate Clean(ls: seq<Line>) {
    Digested(ls) && forall l <- ls :: !HidesRecord(l.path)
  }

  /** What the text before a position says. */
  lemma SameBefore(s: string, t: string, k: nat)
    requires k <= |s| && k <= |t| && forall j :: 0 <= j < k ==> s[j] == t[j]
    ensures LastBefore(s, ':', k) == LastBefore(t, ':', k) && Ends(s, k) == Ends(t, k)
  {
  }

  /** A text that starts with a record. */
  ghost predicate Begins(text: string, path: string, digest: string) {
    && |path| + 1 + |digest| < |text| && text[..|path|] == path && text[|path|] == ':'
    && text[|path| + 1..|path| + 1 + |digest|] == digest && text[|path| + 1 + |digest|] == '\n'
  }

  lemma BeginsWith(path: string, digest: string, rest: string, text: string)
    requires text == path + ":" + digest + "\n" + rest
    ensures Begins(text, path, digest) && text[|path| + |digest| + 2..] == rest
  {
  }

  lemma LastColon(text: string, path: string, digest: string)
    requires Begins(text, path, digest) && DigestLike(digest)
    ensures LastBefore(text, ':', |path| + 1 + |digest|) == |path| && Ends(text, |path| + 1 + |digest|)
  {
    assert forall j :: |path| < j < |path| + 1 + |digest| ==> text[j] == digest[j - |path| - 1];
  }

  /** A record ends no later than where it was written to end, and earlier only inside a path that hides a record. */
  lemma FirstRecord(text: string, path: string, digest: string)
    requires Begins(text, path, digest) && DigestLike(digest)
    ensures RecordEnd(text, 0) <= |path| + 1 + |digest|
    ensures !HidesRecord(path) ==> RecordEnd(text, 0) == |path| + 1 + |digest|
  {
    LastColon(text, path, digest);
    var k := RecordEnd(text, 0);
    if k < |path| + 1 + |digest| {
      assert forall j :: |path| < j < |path| + 1 + |digest| ==> text[j] == digest[j - |path| - 1];
      assert forall j :: 0 <= j < |path| ==> text[j] == text[..|path|][j];
      SameBefore(text, path, k);
    }
  }

  lemma OneRecord(text: string, path: string, digest: string)
    requires Begins(text, path, digest) && DigestLike(digest) && !HidesRecord(path)
    ensures Decode(text) == [Line(path, digest)] + Decode(text[|path| + |digest| + 2..])
  {
    FirstRecord(text, path, digest);
    LastColon(text, path, digest);
    DecodeFirst(text, |path| + 1 + |digest|, |path|);
  }

  lemma DecodeFirst(text: string, k: nat, m: nat)
    requires k < |text| && k == RecordEnd(text, 0) && m == LastBefore(text, ':', k)
    ensures Decode(text) == [Line(text[..m], text[m + 1..k])] + Decode(text[k + 1..])
  {
  }

  lemma DecodeCons(z: Line, rest: string, text: string)
    requires DigestLike(z.digest) && !HidesRecord(z.path) && text == z.path + ":" + z.digest + "\n" + rest
    ensures Decode(text) == [z] + Decode(rest)
  {
    BeginsWith(z.path, z.digest, rest, text);
    OneRecord(text, z.path, z.digest);
  }

  /** A path that hides a record ends its record too early. */
  lemma EndsEarly(text: string, path: string, digest: string)
    requires Begins(text, path, digest) && HidesRecord(path)
    ensures RecordEnd(text, 0) < |path|
  {
    var k :| 0 <= k < |path| && path[k] == '\n' && Ends(path, k);
    assert forall j :: 0 <= j < |path| ==> text[j] == text[..|path|][j];
    SameBefore(path, text, k);
    assert text[k] == '\n' && Ends(text, k);
  }

  lemma DecodeWrong(text: string, path: string, digest: string)
    requires Begins(text, path, digest) && HidesRecord(path)
    ensures Decode(text) != [] && |Decode(text)[0].path| < |path|
  {
    EndsEarly(text, path, digest);
    var k := RecordEnd(text, 0);
    DecodeFirst(text, k, LastBefore(text, ':', k));
  }

  /** Reading the text of given lines gives these lines back exactly when no path hides a record. */
  lemma {:induction false} DecodeEncodeIff(ls: seq<Line>)
    requires Digested(ls)
    ensures Decode(Encode(ls)) == ls <==> Clean(ls)
    decreases |ls|
  {
    if ls != [] {
      var l, rest, text := ls[0], Encode(ls[1..]), Encode(ls);
      assert l in ls && forall m <- ls[1..] :: m in ls;
      DecodeEncodeIff(ls[1..]);
      BeginsWith(l.path, l.digest, rest, text);
      assert ls == [l] + ls[1..];
      FirstReadIff(l, ls[1..], rest, text);
      assert Clean(ls) <==> !HidesRecord(l.path) && Clean(ls[1..]);
    }
  }

  lemma FirstReadIff(l: Line, ls: seq<Line>, rest: string, text: string)
    requires DigestLike(l.digest) && text == l.path + ":" + l.digest + "\n" + rest
    requires Begins(text, l.path, l.digest)
    ensures Decode(text) == [l] + ls <==> !HidesRecord(l.path) && Decode(rest) == ls
  {
    if HidesRecord(l.path) {
      DecodeWrong(text, l.path, l.digest);
      assert ([l] + ls)[0] == l;
    } else {
      DecodeCons(l, rest, text);
      assert ([l] + Decode(rest))[1..] == Decode(rest) && ([l] + ls)[1..] == ls;
    }
  }

  /** A text that ends where a record ends. */
  predicate Whole(text: string) {
    text == "" || (text[|text| - 1] == '\n' && Ends(text, |text| - 1))
  }

  /** Behind a newline only what follows it counts. */
  lemma EndsAfter(text: string, k: nat)
    requires k < |text| - 1 && text[k] == '\n' && Ends(text, |text| - 1)
    ensures Ends(text[k + 1..], |text| - k - 2)
  {
    var rest, m := text[k + 1..], LastBefore(text, ':', |text| - 1);
    assert m > k;
    assert rest[m - k - 1] == ':' && forall j :: 0 <= j < |rest| ==> rest[j] == text[k + 1 + j];
  }

  lemma EndsBefore(front: string, rest: string)
    requires rest != "" && Ends(rest, |rest| - 1)
    ensures Ends(front + rest, |front + rest| - 1)
  {
    var text, m := front + rest, LastBefore(rest, ':', |rest| - 1);
    assert text[|front| + m] == ':' && forall j :: 0 <= j < |rest| ==> text[|front| + j] == rest[j];
  }

  lemma SplitsAt(text: string, k: nat, m: nat)
    requires k < |text| && text[k] == '\n' && Ends(text, k) && m == LastBefore(text, ':', k)
    ensures text == text[..m] + ":" + text[m + 1..k] + "\n" + text[k + 1..]
  {
    assert text[m] == ':';
    assert text == text[..m] + [text[m]] + text[m + 1..k] + [text[k]] + text[k + 1..];
  }

  lemma EncodeCons(l: Line, ls: seq<Line>)
    ensures Encode([l] + ls) == l.path + ":" + l.digest + "\n" + Encode(ls)
  {
    assert ([l] + ls)[1..] == ls;
  }

  /** Writing what has been read gives the text back, if it ends where a record ends. */
  lemma {:induction false} EncodeDecode(text: string)
    requires Whole(text)
    ensures Encode(Decode(text)) == text
    decreases |text|
  {
    if text != "" {
      var k := RecordEnd(text, 0);
      var m := LastBefore(text, ':', k);
      if k < |text| - 1 {
        EndsAfter(text, k);
      }
      EncodeDecode(text[k + 1..]);
      DecodeFirst(text, k, m);
      EncodeCons(Line(text[..m], text[m + 1..k]), Decode(text[k + 1..]));
      SplitsAt(text, k, m);
    }
  }

  lemma WholeCons(l: Line, rest: string, text: string)
    requires DigestLike(l.digest) && Whole(rest) && text == l.path + ":" + l.digest + "\n" + rest
    ensures Whole(text) && text != ""
  {
    BeginsWith(l.path, l.digest, rest, text);
    if rest == "" {
      LastColon(text, l.path, l.digest);
    } else {
      EndsBefore(l.path + ":" + l.digest + "\n", rest);
    }
  }

  lemma {:induction false} EncodedIsWhole(ls: seq<Line>)
    requires Digested(ls)
    ensures Whole(Encode(ls)) && (ls != [] ==> Encode(ls) != "")
    decreases |ls|
  {
    if ls != [] {
      assert ls[0] in ls && forall m <- ls[1..] :: m in ls;
      EncodedIsWhole(ls[1..]);
      WholeCons(ls[0], Encode(ls[1..]), Encode(ls));
    }
  }

  lemma Regroup(a: string, h: string, b: string, d: string)
    ensures a + ":" + h + "\n" + (b + ":" + d + "\n") == (a + ":" + h + "\n" + b) + ":" + d + "\n"
  {
  }

  lemma EncodeOne(z: Line)
    ensures Encode([z]) == z.path + ":" + z.digest + "\n"
  {
  }

  lemma EncodeTwo(x: Line, y: Line)
    ensures Encode([x, y]) == x.path + ":" + x.digest + "\n" + (y.path + ":" + y.digest + "\n")
  {
    assert [x, y][1..] == [y];
    EncodeOne(y);
  }

  lemma HiddenRecord(path: string) returns (a: string, h: string, b: string)
    requires HidesRecord(path)
    ensures DigestLike(h) && path == a + ":" + h + "\n" + b
  {
    var k :| 0 <= k < |path| && path[k] == '\n' && Ends(path, k);
    var m := LastBefore(path, ':', k);
    a, h, b := path[..m], path[m + 1..k], path[k + 1..];
  }

  /** A path that hides a record gives the text of two files. */
  lemma TwoForOne(path: string, digest: string, a: string, h: string, b: string)
    requires path == a + ":" + h + "\n" + b
    ensures Encode([Line(a, h), Line(b, digest)]) == Encode([Line(path, digest)])
  {
    EncodeTwo(Line(a, h), Line(b, digest));
    EncodeOne(Line(path, digest));
    Regroup(a, h, b, digest);
  }

  /** The digest of a directory, from the files in the order `os.walk` meets them.  `shadowed`
      says that the directory's own path runs through a build directory, which excludes everything. */
  function HashOf(isDirectory: bool, shadowed: bool, walk: seq<Found>): Digest {
    if !isDirectory then NoDirectory
    else if shadowed || Lines(walk) == [] then NoFiles
    else Sha(Encode(Sort(Lines(walk))))
  }

  /** The two special results: no directory, and a directory with no file that counts. */
  lemma SpecialDigests(isDirectory: bool, shadowed: bool, walk: seq<Found>)
    ensures HashOf(isDirectory, shadowed, walk) == NoDirectory <==> !isDirectory
    ensures HashOf(isDirectory, shadowed, walk) == NoFiles <==>
              isDirectory && (shadowed || forall f <- walk :: !Retained(f))
  {
    NoLines(walk);
  }

  lemma {:induction false} NoLines(walk: seq<Found>)
    ensures Lines(walk) == [] <==> forall f <- walk :: !Retained(f)
    decreases |walk|
  {
    if walk != [] {
      NoLines(walk[..|walk| - 1]);
      assert walk == walk[..|walk| - 1] + [walk[|walk| - 1]];
    }
  }

  /** The same walk, as the program makes it. */
  method GetDirHash(isDirectory: bool, shadowed: bool, walk: seq<Found>) returns (h: Digest)
    ensures h == HashOf(isDirectory, shadowed, walk)
  {
    if !isDirectory {
      return NoDirectory;
    }
    var fileHashes: seq<Line> := [];
    for k := 0 to |walk|
      invariant fileHashes == if shadowed then [] else Lines(walk[..k])
    {
      assert walk[..k + 1][..k] == walk[..k];
      if !shadowed && Retained(walk[k]) {
        fileHashes := fileHashes + [LineOf(walk[k])];
      }
    }
    assert walk[..|walk|] == walk;
    if fileHashes == [] {
      return NoFiles;
    }
    var text := Updates(Sort(fileHashes));
    h := Sha(text);
  }

  /** The `h.update` calls, one line at a time. */
  method Updates(ls: seq<Line>) returns (text: string)
    ensures text == Encode(ls)
  {
    text := "";
    for k := 0 to |ls|
      invariant text + Encode(ls[k..]) == Encode(ls)
    {
      ghost var line := ls[k].path + ":" + ls[k].digest + "\n";
      assert ls[k..][1..] == ls[k + 1..];
      assert text + (line + Encode(ls[k + 1..])) == (text + line) + Encode(ls[k + 1..]);
      text := text + (ls[k].path + ":" + ls[k].digest + "\n");
    }
    assert text + "" == text;
  }

  ghost function RetainedSet(walk: seq<Found>): set<Line> {
    set f | f in walk && Retained(f) :: LineOf(f)
  }

  /** A file system walk meets every path once. */
  ghost predicate WalkOf(walk: seq<Found>) {
    forall j, k :: 0 <= j < k < |walk| ==> RelPath(walk[j].dirs, walk[j].name) != RelPath(walk[k].dirs, walk[k].name)
  }

  lemma {:induction false} LinesAreRetained(walk: seq<Found>)
    requires WalkOf(walk)
    ensures forall l :: l in Lines(walk) <==> l in RetainedSet(walk)
    ensures DistinctPaths(Lines(walk))
    ensures forall l :: l in Lines(walk) ==> exists f :: f in walk && RelPath(f.dirs, f.name) == l.path
    decreases |walk|
  {
    if walk != [] {
      var front, f := walk[..|walk| - 1], walk[|walk| - 1];
      LinesAreRetained(front);
      forall l | l in RetainedSet(walk) ensures l in Lines(walk) {
        var g :| g in walk && Retained(g) && LineOf(g) == l;
        assert g in front || g == f;
        assert g in front ==> l in RetainedSet(front);
      }
      forall l | l in Lines(front) ensures l.path != RelPath(f.dirs, f.name) {
        var g :| g in front && RelPath(g.dirs, g.name) == l.path;
      }
    }
  }

  /** The digest is canonical: the order of the walk does not matter, and where no path hides a
      record two directories have equal digests exactly when their sets of retained
      (path, file digest) pairs are equal. */
  lemma DigestIsCanonical(v: seq<Found>, w: seq<Found>)
    requires WalkOf(v) && WalkOf(w)
    ensures RetainedSet(v) == RetainedSet(w) ==> HashOf(true, false, v) == HashOf(true, false, w)
    ensures Clean(Lines(v)) && Clean(Lines(w)) && HashOf(true, false, v) == HashOf(true, false, w) ==>
        RetainedSet(v) == RetainedSet(w)
  {
    LinesAreRetained(v);
    LinesAreRetained(w);
    SortSorted(Lines(v));
    SortSorted(Lines(w));
    if RetainedSet(v) == RetainedSet(w) {
      SortedUnique(Sort(Lines(v)), Sort(Lines(w)));
      assert Lines(v) != [] ==> Lines(v)[0] in Lines(w);
      assert Lines(w) != [] ==> Lines(w)[0] in Lines(v);
    }
    if Clean(Lines(v)) && Clean(Lines(w)) && HashOf(true, false, v) == HashOf(true, false, w) {
      DecodeEncodeIff(Sort(Lines(v)));
      DecodeEncodeIff(Sort(Lines(w)));
    }
  }

  /** What the text of a directory's digest reads as. */
  function ReadAs(walk: seq<Found>): seq<Line> {
    Decode(Encode(Sort(Lines(walk))))
  }

  lemma SortDigested(walk: seq<Found>)
    requires WalkOf(walk) && Digested(Lines(walk))
    ensures Digested(Sort(Lines(walk))) && (Sort(Lines(walk)) == [] <==> Lines(walk) == [])
    ensures Clean(Sort(Lines(walk))) <==> Clean(Lines(walk))
  {
    LinesAreRetained(walk);
    SortSorted(Lines(walk));
    var ls, sorted := Lines(walk), Sort(Lines(walk));
    if ls != [] {
      assert ls[0] in sorted;
    }
    if sorted != [] {
      assert sorted[0] in ls;
    }
  }

  /** Whatever their paths: two directories have equal digests exactly when their texts read as the same lines. */
  lemma DigestsAgreeIff(v: seq<Found>, w: seq<Found>)
    requires WalkOf(v) && WalkOf(w) && Digested(Lines(v)) && Digested(Lines(w))
    ensures HashOf(true, false, v) == HashOf(true, false, w) <==> ReadAs(v) == ReadAs(w)
  {
    var a, b := Sort(Lines(v)), Sort(Lines(w));
    SortDigested(v);
    SortDigested(w);
    EncodedIsWhole(a);
    EncodedIsWhole(b);
    EncodeDecode(Encode(a));
    EncodeDecode(Encode(b));
  }

  /** A directory's text reads as its own lines exactly when no path hides a record. */
  lemma ReadsAsOwnIff(walk: seq<Found>)
    requires WalkOf(walk) && Digested(Lines(walk))
    ensures ReadAs(walk) == Sort(Lines(walk)) <==> Clean(Lines(walk))
  {
    SortDigested(walk);
    DecodeEncodeIff(Sort(Lines(walk)));
  }

  /** Sorting leaves a sorted sequence alone. */
  lemma SortOfSorted(ls: seq<Line>)
    requires Sorted(ls)
    ensures Sort(ls) == ls
  {
    forall j, k | 0 <= j < k < |ls| ensures ls[j].path != ls[k].path {
      LessIsStrict(ls[j].path, ls[k].path, "");
    }
    SortSorted(ls);
    SortedUnique(Sort(ls), ls);
  }

  lemma LinesOfOne(f: Found)
    requires Retained(f)
    ensures Lines([f]) == [LineOf(f)]
  {
    assert [f][..0] == [];
  }

  lemma LinesOfTwo(f: Found, g: Found)
    requires Retained(f) && Retained(g)
    ensures Lines([f, g]) == [LineOf(f), LineOf(g)]
  {
    assert [f, g][..1] == [f];
    LinesOfOne(f);
  }

  /** Where a path hides a record, a directory with this one file and one with two other files have one digest. */
  lemma NewlinesCollide(joined: Found, f: Found, g: Found)
    requires Retained(joined) && Retained(f) && Retained(g)
    requires Less(LineOf(f).path, LineOf(g).path) && g.digest == joined.digest
    requires LineOf(joined).path == LineOf(f).path + ":" + f.digest + "\n" + LineOf(g).path
    ensures HashOf(true, false, [joined]) == HashOf(true, false, [f, g])
    ensures RetainedSet([joined]) != RetainedSet([f, g])
    ensures DigestLike(f.digest) ==> HidesRecord(LineOf(joined).path)
  {
    var x, y, z := LineOf(f), LineOf(g), LineOf(joined);
    LinesOfOne(joined);
    LinesOfTwo(f, g);
    SortOfSorted([z]);
    SortOfSorted([x, y]);
    TwoForOne(z.path, z.digest, x.path, x.digest, y.path);
    assert x in RetainedSet([f, g]) && x.path != z.path by {
      assert f in [f, g] && |z.path| > |x.path|;
    }
    if DigestLike(f.digest) {
      Hiding(x.path, x.digest, y.path);
    }
  }

  lemma Hiding(a: string, h: string, b: string)
    requires DigestLike(h)
    ensures HidesRecord(a + ":" + h + "\n" + b)
  {
    var path := a + ":" + h + "\n" + b;
    BeginsWith(a, h, b, path);
    LastColon(path, a, h);
  }

  /** Files the stages themselves write into hashed directories. */
  const OUTPUTS: seq<(seq<string>, string)> := [
    (["c", "src"], "libpronze.so"), ([], "test_alloc"), ([], "test_bounds"), ([], "test_zig"), ([], "pronze.ko"),
    (["test_rust", "target", "x86_64-unknown-linux-musl", "release"], "test_rust"),
    (["target", "x86_64-unknown-linux-musl", "release"], "pronzed")]

  lemma OutputsExcluded(k: nat, digest: string)
    requires k < |OUTPUTS|
    ensures !Retained(Found(OUTPUTS[k].0, OUTPUTS[k].1, digest))
  {
    assert |OUTPUTS| == 7;
    assert ".so" in SUFFIXES by { assert SUFFIXES[5] == ".so"; }
    assert ".ko" in SUFFIXES by { assert SUFFIXES[1] == ".ko"; }
    assert "target" in PRUNED by { assert PRUNED[0] == "target"; }
    assert "test_alloc" in NAMES && "test_bounds" in NAMES && "test_zig" in NAMES by {
      assert NAMES[0] == "test_alloc" && NAMES[1] == "test_bounds" && NAMES[2] == "test_zig";
    }
    if k == 0 {
      assert EndsWith("libpronze.so", ".so");
    } else if k == 4 {
      assert EndsWith("pronze.ko", ".ko");
    } else if k == 5 {
      assert OUTPUTS[5].0[1] == "target" && "target" in OUTPUTS[5].0;
    } else if k == 6 {
      assert OUTPUTS[6].0[0] == "target" && "target" in OUTPUTS[6].0;
    }
  }

  /** What a build writes under excluded names leaves every directory digest as it was. */
  lemma ExcludedFilesDoNotMatter(before: seq<Found>, after: seq<Found>)
    requires WalkOf(before) && WalkOf(after)
    requires forall f :: Retained(f) ==> (f in before <==> f in after)
    ensures HashOf(true, false, before) == HashOf(true, false, after)
  {
    assert RetainedSet(before) == RetainedSet(after);
    DigestIsCanonical(before, after);
  }

  // Which files count, and that every edit of one shows

  lemma EndsWithIff(s: string, t: string)
    ensures EndsWith(s, t) <==> exists p: string :: s == p + t
  {
    if EndsWith(s, t) {
      assert s == s[..|s| - |t|] + t;
    }
    forall p: string | s == p + t ensures EndsWith(s, t) {
      assert s[|p|..] == t;
    }
  }

  /** Exactly which files enter the digest: those that can be read, with no hidden or build directory on the way,
      not hidden, not a build product by their ending, and not one of the four test programs. */
  lemma RetainedIff(f: Found)
    ensures Retained(f) <==>
        && (forall d <- f.dirs ::
              (d == "" || d[0] != '.') && d != "target" && d != ".tmp_versions" && d != "__pycache__")
        && (f.name == "" || f.name[0] != '.')
        && !EndsWith(f.name, ".o") && !EndsWith(f.name, ".ko") && !EndsWith(f.name, ".mod")
        && !EndsWith(f.name, ".mod.c") && !EndsWith(f.name, ".o.d") && !EndsWith(f.name, ".so")
        && !EndsWith(f.name, ".img") && !EndsWith(f.name, "modules.order")
        && !EndsWith(f.name, "Module.symvers") && !EndsWith(f.name, ".pyc")
        && f.name != "test_alloc" && f.name != "test_bounds" && f.name != "test_zig" && f.name != "test_rust"
        && f.digest != ""
  {
    forall d ensures Entered(d) <==>
        (d == "" || d[0] != '.') && d != "target" && d != ".tmp_versions" && d != "__pycache__"
    {
      EnteredIff(d);
    }
    NoSuffixIff(f.name);
    NamesAre(f.name, NAMES);
  }

  lemma EnteredIff(d: string)
    ensures Entered(d) <==> (d == "" || d[0] != '.') && d != "target" && d != ".tmp_versions" && d != "__pycache__"
  {
    PrunedAre(PRUNED);
  }

  lemma NoSuffixIff(name: string)
    ensures (forall t <- SUFFIXES :: !EndsWith(name, t)) <==>
        && !EndsWith(name, ".o") && !EndsWith(name, ".ko") && !EndsWith(name, ".mod") && !EndsWith(name, ".mod.c")
        && !EndsWith(name, ".o.d") && !EndsWith(name, ".so") && !EndsWith(name, ".img")
        && !EndsWith(name, "modules.order") && !EndsWith(name, "Module.symvers") && !EndsWith(name, ".pyc")
  {
    SuffixesAre(name, SUFFIXES);
  }

  lemma SuffixesAre(name: string, ts: seq<string>)
    requires |ts| == 10
    ensures (forall t <- ts :: !EndsWith(name, t)) <==>
        && !EndsWith(name, ts[0]) && !EndsWith(name, ts[1]) && !EndsWith(name, ts[2]) && !EndsWith(name, ts[3])
        && !EndsWith(name, ts[4]) && !EndsWith(name, ts[5]) && !EndsWith(name, ts[6]) && !EndsWith(name, ts[7])
        && !EndsWith(name, ts[8]) && !EndsWith(name, ts[9])
  {
  }

  lemma PrunedAre(ts: seq<string>)
    requires |ts| == 3
    ensures forall d :: d in ts <==> d == ts[0] || d == ts[1] || d == ts[2]
  {
  }

  lemma NamesAre(name: string, ts: seq<string>)
    requires |ts| == 4
    ensures name in ts <==> name == ts[0] || name == ts[1] || name == ts[2] || name == ts[3]
  {
  }

  /** The kinds of source file that the hashed directories have, besides `Makefile` and `run`. */
  predicate SourceEnding(ext: string) {
    || ext == ".c" || ext == ".h" || ext == ".cpp" || ext == ".hpp" || ext == ".rs" || ext == ".zig"
    || ext == ".py" || ext == ".toml" || ext == ".lock" || ext == ".mfs" || ext == ".md" || ext == ".test"
  }

  lemma LastOf(stem: string, ext: string, t: string)
    requires EndsWith(stem + ext, t)
    ensures |t| <= |ext| ==> EndsWith(ext, t)
    ensures |t| > |ext| ==> EndsWith(t, ext) && EndsWith(stem, t[..|t| - |ext|])
  {
    var s := stem + ext;
    if |t| <= |ext| {
      assert ext[|ext| - |t|..] == s[|s| - |t|..];
    } else {
      assert t[|t| - |ext|..] == s[|s| - |ext|..] == ext;
      assert stem[|stem| - (|t| - |ext|)..] == s[|s| - |t|..|s| - |ext|] == t[..|t| - |ext|];
    }
  }

  /** Only C sources have an ending in common with a build product. */
  lemma EndingsDiffer(ext: string, t: string)
    requires SourceEnding(ext) && t in SUFFIXES && (EndsWith(ext, t) || EndsWith(t, ext))
    ensures ext == ".c" && t == ".mod.c"
  {
    SuffixList(t, SUFFIXES);
  }

  lemma SuffixList(t: string, ts: seq<string>)
    requires |ts| == 10 && t in ts
    ensures || t == ts[0] || t == ts[1] || t == ts[2] || t == ts[3] || t == ts[4] || t == ts[5] || t == ts[6]
            || t == ts[7] || t == ts[8] || t == ts[9]
  {
  }

  /** Every readable source file outside hidden and build directories enters the digest, unless it is a C file
      that the kernel build has made. */
  lemma SourceRetained(dirs: seq<string>, stem: string, ext: string, digest: string)
    requires SourceEnding(ext) && stem != "" && stem[0] != '.' && (ext == ".c" ==> !EndsWith(stem, ".mod"))
    requires (forall d <- dirs :: Entered(d)) && digest != ""
    ensures Retained(Found(dirs, stem + ext, digest))
  {
    var name := stem + ext;
    forall t | t in SUFFIXES ensures !EndsWith(name, t) {
      if EndsWith(name, t) {
        LastOf(stem, ext, t);
        EndingsDiffer(ext, t);
      }
    }
    assert name[0] == stem[0];
    NameTells(stem, ext);
  }

  /** The test programs have no ending. */
  lemma NameTells(stem: string, ext: string)
    requires SourceEnding(ext)
    ensures stem + ext !in NAMES
  {
    var name := stem + ext;
    assert name[|stem|] == '.';
    NamesAre(name, NAMES);
  }

  // Files of the repository that the build must notice

  lemma ModuleRetained(digest: string)
    requires digest != ""
    ensures Retained(Found([], "pronze_main.c", digest)) && Retained(Found(["pager"], "_page_pr.c", digest))
    ensures Retained(Found(["device"], "dev_pronze.h", digest)) && Retained(Found([], "Makefile", digest))
  {
    SourceIs([], "pronze_main", ".c", "pronze_main.c", digest);
    SourceIs(["pager"], "_page_pr", ".c", "_page_pr.c", digest);
    SourceIs(["device"], "dev_pronze", ".h", "dev_pronze.h", digest);
    WithoutEnding([], "Makefile", digest);
  }

  lemma SdkRetained(digest: string)
    requires digest != ""
    ensures Retained(Found(["c", "src"], "pronze.c", digest)) && Retained(Found(["zig"], "pronze.zig", digest))
    ensures Retained(Found(["rust", "src"], "lib.rs", digest)) && Retained(Found(["rust"], "Cargo.toml", digest))
  {
    SourceIs(["c", "src"], "pronze", ".c", "pronze.c", digest);
    SourceIs(["zig"], "pronze", ".zig", "pronze.zig", digest);
    SourceIs(["rust", "src"], "lib", ".rs", "lib.rs", digest);
    SourceIs(["rust"], "Cargo", ".toml", "Cargo.toml", digest);
  }

  lemma TestsRetained(digest: string)
    requires digest != ""
    ensures Retained(Found([], "test_alloc.c", digest)) && Retained(Found([], "test_bounds.cpp", digest))
    ensures Retained(Found([], "test_zig.zig", digest)) && Retained(Found(["test_rust", "src"], "main.rs", digest))
  {
    SourceIs([], "test_alloc", ".c", "test_alloc.c", digest);
    SourceIs([], "test_bounds", ".cpp", "test_bounds.cpp", digest);
    SourceIs([], "test_zig", ".zig", "test_zig.zig", digest);
    SourceIs(["test_rust", "src"], "main", ".rs", "main.rs", digest);
  }

  lemma RestRetained(digest: string)
    requires digest != ""
    ensures Retained(Found(["src"], "main.rs", digest)) && Retained(Found([], "Cargo.lock", digest))
    ensures Retained(Found(["pronze"], "run", digest)) && Retained(Found([], "default.mfs", digest))
    ensures Retained(Found(["stages"], "sdk.py", digest)) && Retained(Found(["folder"], "test.test", digest))
  {
    SourceIs(["src"], "main", ".rs", "main.rs", digest);
    SourceIs([], "Cargo", ".lock", "Cargo.lock", digest);
    WithoutEnding(["pronze"], "run", digest);
    SourceIs([], "default", ".mfs", "default.mfs", digest);
    SourceIs(["stages"], "sdk", ".py", "sdk.py", digest);
    SourceIs(["folder"], "test", ".test", "test.test", digest);
  }

  lemma SourceIs(dirs: seq<string>, stem: string, ext: string, name: string, digest: string)
    requires name == stem + ext && SourceEnding(ext) && stem != "" && stem[0] != '.'
    requires (ext == ".c" ==> !EndsWith(stem, ".mod")) && |dirs| <= 2
    requires (|dirs| > 0 ==> Entered(dirs[0])) && (|dirs| > 1 ==> Entered(dirs[1])) && digest != ""
    ensures Retained(Found(dirs, name, digest))
  {
    SourceRetained(dirs, stem, ext, digest);
  }

  lemma WithoutEnding(dirs: seq<string>, name: string, digest: string)
    requires name in {"Makefile", "run"} && |dirs| <= 1 && (|dirs| > 0 ==> Entered(dirs[0])) && digest != ""
    ensures Retained(Found(dirs, name, digest))
  {
    forall t | t in SUFFIXES ensures !EndsWith(name, t) {
      SuffixLast(t);
    }
    NamesAre(name, NAMES);
  }

  lemma SuffixLast(t: string)
    requires t in SUFFIXES
    ensures t != "" && t[|t| - 1] in {'o', 'd', 'c', 'g', 'r', 's'}
  {
    SuffixList(t, SUFFIXES);
  }

  /** `ls` with another digest for the file at `path`. */
  function Edited(ls: seq<Line>, path: string, digest: string): seq<Line> {
    if ls == [] then []
    else Edited(ls[..|ls| - 1], path, digest) + [EditedLine(ls[|ls| - 1], path, digest)]
  }

  function EditedLine(l: Line, path: string, digest: string): Line {
    if l.path == path then Line(path, digest) else l
  }

  lemma {:induction false} EditedAt(ls: seq<Line>, path: string, digest: string)
    ensures |Edited(ls, path, digest)| == |ls|
    ensures forall k :: 0 <= k < |ls| ==> Edited(ls, path, digest)[k] == EditedLine(ls[k], path, digest)
    decreases |ls|
  {
    if ls != [] {
      EditedAt(ls[..|ls| - 1], path, digest);
    }
  }

  /** Editing a file changes its line only. */
  lemma {:induction false} LinesEdited(walk: seq<Found>, k: nat, digest: string)
    requires WalkOf(walk) && k < |walk| && Retained(walk[k]) && digest != ""
    ensures var f := walk[k];
            Lines(walk[k := f.(digest := digest)]) == Edited(Lines(walk), RelPath(f.dirs, f.name), digest)
    decreases |walk|
  {
    var n, f := |walk| - 1, walk[k];
    var path, next := RelPath(f.dirs, f.name), walk[k := f.(digest := digest)];
    var front, g := walk[..n], walk[n];
    LinesLast(walk, front, g);
    EditedAppend(Lines(front), Kept(g), path, digest);
    if k < n {
      LinesEdited(front, k, digest);
      LinesLast(next, front[k := f.(digest := digest)], g);
    } else {
      Untouched(front, path, digest);
      LinesLast(next, front, f.(digest := digest));
    }
  }

  function Kept(f: Found): seq<Line> {
    if Retained(f) then [LineOf(f)] else []
  }

  lemma LinesLast(walk: seq<Found>, front: seq<Found>, f: Found)
    requires walk == front + [f]
    ensures Lines(walk) == Lines(front) + Kept(f)
  {
    assert walk[..|walk| - 1] == front;
  }

  lemma {:induction false} Untouched(walk: seq<Found>, path: string, digest: string)
    requires forall f <- walk :: RelPath(f.dirs, f.name) != path
    ensures Edited(Lines(walk), path, digest) == Lines(walk)
    decreases |walk|
  {
    if walk != [] {
      var g := walk[|walk| - 1];
      Untouched(walk[..|walk| - 1], path, digest);
      EditedAppend(Lines(walk[..|walk| - 1]), Kept(g), path, digest);
    }
  }

  lemma EditedAppend(ls: seq<Line>, more: seq<Line>, path: string, digest: string)
    requires |more| <= 1
    ensures Edited(ls + more, path, digest)
            == Edited(ls, path, digest) + if more == [] then [] else [EditedLine(more[0], path, digest)]
  {
    if more == [] {
      assert ls + more == ls;
    } else {
      assert (ls + more)[..|ls + more| - 1] == ls;
    }
  }

  /** The order of the lines does not depend on the digests. */
  lemma SortEdited(ls: seq<Line>, path: string, digest: string)
    requires DistinctPaths(ls)
    ensures Sort(Edited(ls, path, digest)) == Edited(Sort(ls), path, digest)
  {
    var a, b := Sort(Edited(ls, path, digest)), Edited(Sort(ls), path, digest);
    EditedAt(ls, path, digest);
    EditedAt(Sort(ls), path, digest);
    SortSorted(ls);
    SortSorted(Edited(ls, path, digest));
    forall l ensures l in a <==> l in b {
      if l in a {
        var k :| 0 <= k < |ls| && l == EditedLine(ls[k], path, digest);
        assert ls[k] in Sort(ls);
        var m :| 0 <= m < |Sort(ls)| && Sort(ls)[m] == ls[k];
        assert b[m] == l;
      }
      if l in b {
        var m :| 0 <= m < |Sort(ls)| && l == EditedLine(Sort(ls)[m], path, digest);
        assert Sort(ls)[m] in ls;
        var k :| 0 <= k < |ls| && ls[k] == Sort(ls)[m];
        assert Edited(ls, path, digest)[k] == l;
      }
    }
    SortedUnique(a, b);
  }

  lemma PrefixOff(p: string, a: string, b: string)
    requires p + a == p + b
    ensures a == b
  {
    assert a == (p + a)[|p|..] && b == (p + b)[|p|..];
  }

  lemma SuffixOff(a: string, b: string, s: string)
    requires a + s == b + s
    ensures a == b
  {
    assert |a| == |b|;
    assert a == (a + s)[..|a|] && b == (b + s)[..|b|];
  }

  lemma OneLineDiffers(path: string, d: string, e: string, rest: string)
    requires path + ":" + d + "\n" + rest == path + ":" + e + "\n" + rest
    ensures d == e
  {
    var s := "\n" + rest;
    assert path + ":" + d + "\n" + rest == (path + ":") + (d + s);
    assert path + ":" + e + "\n" + rest == (path + ":") + (e + s);
    PrefixOff(path + ":", d + s, e + s);
    SuffixOff(d, e, s);
  }

  lemma {:induction false} EditedText(ls: seq<Line>, j: nat, path: string, digest: string)
    requires j < |ls| && ls[j].path == path && ls[j].digest != digest && DistinctPaths(ls)
    ensures Encode(Edited(ls, path, digest)) != Encode(ls)
    decreases |ls|
  {
    var ms, l := Edited(ls, path, digest), ls[0];
    EditedAt(ls, path, digest);
    EditedAt(ls[1..], path, digest);
    assert ms[1..] == Edited(ls[1..], path, digest);
    if j == 0 {
      assert ms[1..] == ls[1..];
      if Encode(ms) == Encode(ls) {
        OneLineDiffers(path, digest, l.digest, Encode(ls[1..]));
      }
    } else {
      EditedText(ls[1..], j - 1, path, digest);
      if Encode(ms) == Encode(ls) {
        PrefixOff(l.path + ":" + l.digest + "\n", Encode(ms[1..]), Encode(ls[1..]));
      }
    }
  }

  /** Whatever the paths: editing a file that counts changes the digest of the directory. */
  lemma EditShows(walk: seq<Found>, k: nat, digest: string)
    requires WalkOf(walk) && k < |walk| && Retained(walk[k]) && digest != "" && digest != walk[k].digest
    ensures HashOf(true, false, walk[k := walk[k].(digest := digest)]) != HashOf(true, false, walk)
  {
    var f, ls := walk[k], Lines(walk);
    var path := RelPath(f.dirs, f.name);
    LinesAreRetained(walk);
    LinesEdited(walk, k, digest);
    SortEdited(ls, path, digest);
    EditedAt(ls, path, digest);
    assert LineOf(f) in RetainedSet(walk);
    assert LineOf(f) in Sort(ls);
    var j :| 0 <= j < |Sort(ls)| && Sort(ls)[j] == LineOf(f);
    SortSorted(ls);
    forall a, b | 0 <= a < b < |Sort(ls)| ensures Sort(ls)[a].path != Sort(ls)[b].path {
      LessIsStrict(Sort(ls)[a].path, Sort(ls)[b].path, "");
    }
    EditedText(Sort(ls), j, path, digest);
  }

  /** The length of the text does not depend on the order of the lines. */
  function Size(ls: seq<Line>): nat {
    if ls == [] then 0 else |ls[0].path| + |ls[0].digest| + 2 + Size(ls[1..])
  }

  lemma {:induction false} EncodeSize(ls: seq<Line>)
    ensures |Encode(ls)| == Size(ls)
    decreases |ls|
  {
    if ls != [] {
      EncodeSize(ls[1..]);
    }
  }

  lemma {:induction false} InsertSize(x: Line, ls: seq<Line>)
    ensures Size(Insert(x, ls)) == |x.path| + |x.digest| + 2 + Size(ls)
    decreases |ls|
  {
    if ls == [] || Less(x.path, ls[0].path) {
      assert ([x] + ls)[1..] == ls;
    } else {
      InsertSize(x, ls[1..]);
      assert ([ls[0]] + Insert(x, ls[1..]))[1..] == Insert(x, ls[1..]);
    }
  }

  /** Whatever the paths: a file more that counts changes the digest of the directory. */
  lemma AdditionShows(walk: seq<Found>, f: Found)
    requires Retained(f)
    ensures HashOf(true, false, walk + [f]) != HashOf(true, false, walk)
  {
    var ls, more := Lines(walk), Lines(walk + [f]);
    assert (walk + [f])[..|walk|] == walk;
    assert more == ls + [LineOf(f)] && more[..|more| - 1] == ls;
    assert Sort(more) == Insert(LineOf(f), Sort(ls));
    InsertSize(LineOf(f), Sort(ls));
    EncodeSize(Sort(ls));
    EncodeSize(Sort(more));
  }

  /** Paths tell files apart: directory names have no slash in them. */
  lemma {:induction false} RelPathShows(dirs: seq<string>, name: string, others: seq<string>, other: string)
    requires (forall d <- dirs :: '/' !in d) && '/' !in name && (forall d <- others :: '/' !in d) && '/' !in other
    ensures RelPath(dirs, name) == RelPath(others, other) <==> dirs == others && name == other
    decreases |dirs|
  {
    if dirs != [] && others != [] {
      RelPathShows(dirs[1..], name, others[1..], other);
      if RelPath(dirs, name) == RelPath(others, other) {
        assert dirs[0] in dirs && others[0] in others;
        FirstSlash(dirs[0], others[0], RelPath(dirs[1..], name), RelPath(others[1..], other));
        assert dirs == [dirs[0]] + dirs[1..] && others == [others[0]] + others[1..];
      }
    } else if dirs != [] {
      assert RelPath(dirs, name)[|dirs[0]|] == '/';
    } else if others != [] {
      assert RelPath(others, other)[|others[0]|] == '/';
    }
  }

  lemma FirstSlash(a: string, b: string, x: string, y: string)
    requires '/' !in a && '/' !in b && a + "/" + x == b + "/" + y
    ensures a == b && x == y
  {
    var s, t := a + "/" + x, b + "/" + y;
    assert s[|a|] == '/' && t[|b|] == '/';
    if |a| < |b| || |b| < |a| {
      assert false;
    }
    assert a == s[..|a|] && b == t[..|b|] && x == s[|a| + 1..] && y == t[|b| + 1..];
  }
}
