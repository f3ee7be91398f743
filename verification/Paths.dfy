/** Remote paths: splitting, joining and normalising them, and the file list that is shown to the user. */
module Paths {
  import opened Base
  import opened Metadata
  import opened EntryList
  import R = ReceiverModel
  import RS = ReceiverSafety

  // ---- Split and join ----

  function Split(path: string): (parts: seq<string>)
    ensures parts != []
  {
    if path == "" then [""]
    else
      var rest := Split(path[1..]);
      if path[0] == '/' then [""] + rest else [[path[0]] + rest[0]] + rest[1..]
  }

  function Join(parts: seq<string>): string {
    if parts == [] then ""
    else if |parts| == 1 then parts[0]
    else parts[0] + "/" + Join(parts[1..])
  }

  ghost predicate Plain(parts: seq<string>) {
    forall p :: p in parts ==> '/' !in p
  }

  /** Joining undoes splitting, and the parts of a path hold no separator. */
  lemma {:induction false} JoinOfSplit(path: string)
    ensures Join(Split(path)) == path && Plain(Split(path))
  {
    if path != "" {
      JoinOfSplit(path[1..]);
      var rest := Split(path[1..]);
      assert rest == [rest[0]] + rest[1..];
      if path[0] == '/' {
        assert ([""] + rest)[1..] == rest;
        assert "" + "/" + path[1..] == path;
      } else {
        var parts := [[path[0]] + rest[0]] + rest[1..];
        assert parts[1..] == rest[1..];
        if |rest| > 1 {
          ConcatAssociates([path[0]], rest[0], "/" + Join(rest[1..]));
          ConcatAssociates([path[0]] + rest[0], "/", Join(rest[1..]));
          ConcatAssociates(rest[0], "/", Join(rest[1..]));
        }
        assert [path[0]] + path[1..] == path;
      }
    }
  }

  /** Splitting undoes joining, for parts without separators. */
  lemma {:induction false} SplitOfJoin(parts: seq<string>)
    requires parts != [] && Plain(parts)
    ensures Split(Join(parts)) == parts
    decreases |parts|
  {
    assert parts[0] in parts;
    if |parts| == 1 {
      SplitPlain(parts[0], "", [""]);
      assert parts[0] + "" == parts[0] && parts[0] + [""][0] == parts[0];
      assert [""][1..] == [];
      assert parts == [parts[0]];
    } else {
      var rest := Join(parts[1..]);
      SplitOfJoin(parts[1..]);
      var tail := [""] + parts[1..];
      assert ("/" + rest)[1..] == rest && Split("/" + rest) == tail;
      SplitPlain(parts[0], "/" + rest, tail);
      ConcatAssociates(parts[0], "/", rest);
      assert parts[0] + tail[0] == parts[0] && tail[1..] == parts[1..];
      assert parts == [parts[0]] + parts[1..];
    }
  }

  /** A part without separators goes in front of whatever follows it. */
  lemma {:induction false} SplitPlain(part: string, more: string, parts: seq<string>)
    requires '/' !in part && Split(more) == parts
    ensures Split(part + more) == [part + parts[0]] + parts[1..]
  {
    if part == "" {
      assert part + more == more && part + parts[0] == parts[0];
      assert parts == [parts[0]] + parts[1..];
    } else {
      SplitPlain(part[1..], more, parts);
      assert (part + more)[0] == part[0] && (part + more)[1..] == part[1..] + more;
      assert part == [part[0]] + part[1..];
      ConcatAssociates([part[0]], part[1..], parts[0]);
    }
  }

  // ---- Normalising ----

  /** The characters that trimming removes: those with the Unicode property White_Space. */
  predicate IsSpace(c: char) {
    var n := c as int;
    || 0x09 <= n <= 0x0D || n == 0x20 || n == 0x85 || n == 0xA0 || n == 0x1680
    || 0x2000 <= n <= 0x200A || n == 0x2028 || n == 0x2029 || n == 0x202F || n == 0x205F || n == 0x3000
  }

  /** Trimming leaves nothing. */
  predicate IsBlank(part: string) {
    forall c :: c in part ==> IsSpace(c)
  }

  function Solid(parts: seq<string>): (r: seq<string>)
    ensures forall p :: p in r <==> p in parts && !IsBlank(p)
  {
    if parts == [] then []
    else (if IsBlank(parts[0]) then [] else [parts[0]]) + Solid(parts[1..])
  }

  function Normalize(path: string): string {
    Join(Solid(Split(path)))
  }

  lemma {:induction false} SolidKeeps(parts: seq<string>)
    requires forall p :: p in parts ==> !IsBlank(p)
    ensures Solid(parts) == parts
  {
    if parts != [] {
      assert parts[0] in parts;
      SolidKeeps(parts[1..]);
      assert parts == [parts[0]] + parts[1..];
    }
  }

  /** A normalised path has no blank part (it is empty if no part of the original is solid), and stays as it is. */
  lemma NormalizeSettles(path: string)
    ensures Normalize(path) == "" || forall p :: p in Split(Normalize(path)) ==> !IsBlank(p)
    ensures Normalize(Normalize(path)) == Normalize(path)
  {
    var solid := Solid(Split(path));
    JoinOfSplit(path);
    if solid == [] {
      assert Split("") == [""] && Solid([""]) == [] + Solid([]);
    } else {
      assert Plain(solid);
      SplitOfJoin(solid);
      SolidKeeps(solid);
    }
  }

  /** What one part leaves. */
  function One(part: string): seq<string> {
    if IsBlank(part) then [] else [part]
  }

  lemma {:induction false} SolidConcat(a: seq<string>, b: seq<string>)
    ensures Solid(a + b) == Solid(a) + Solid(b)
  {
    if a == [] {
      assert a + b == b;
    } else {
      SolidConcat(a[1..], b);
      assert a == [a[0]] + a[1..];
      SolidTwo(a[0], a[1..], b);
    }
  }

  lemma SolidTwo(part: string, rest: seq<string>, b: seq<string>)
    requires Solid(rest + b) == Solid(rest) + Solid(b)
    ensures Solid([part] + rest + b) == Solid([part] + rest) + Solid(b)
  {
    SolidFirst(part, rest + b);
    SolidFirst(part, rest);
    ConcatAssociates([part], rest, b);
    ConcatAssociates(One(part), Solid(rest), Solid(b));
  }

  lemma SolidFirst(part: string, rest: seq<string>)
    ensures Solid([part] + rest) == One(part) + Solid(rest)
  {
    assert ([part] + rest)[1..] == rest;
  }

  /** Splitting at a separator. */
  lemma SplitConcat(a: string, b: string)
    ensures Split(a + "/" + b) == Split(a) + Split(b)
  {
    JoinOfSplit(a);
    JoinOfSplit(b);
    var parts := Split(a) + Split(b);
    JoinConcat(Split(a), Split(b));
    SplitOfJoin(parts);
  }

  lemma {:induction false} JoinConcat(a: seq<string>, b: seq<string>)
    requires a != [] && b != []
    ensures Join(a + b) == Join(a) + "/" + Join(b)
    decreases |a|
  {
    assert (a + b)[0] == a[0] && (a + b)[1..] == a[1..] + b;
    if |a| == 1 {
      assert a[1..] + b == b;
    } else {
      JoinConcat(a[1..], b);
      ConcatAssociates(a[0] + "/", Join(a[1..]), "/");
      ConcatAssociates(a[0] + "/", Join(a[1..]) + "/", Join(b));
    }
  }

  /** Normalising keeps every part that is not blank, in order, and puts one separator between two of them. */
  lemma NormalizeKeeps(a: string, b: string)
    ensures Normalize(a + "/" + b) ==
            if Normalize(a) == "" then Normalize(b)
            else if Normalize(b) == "" then Normalize(a)
            else Normalize(a) + "/" + Normalize(b)
    ensures '/' !in a ==> Normalize(a) == if IsBlank(a) then "" else a
  {
    SplitConcat(a, b);
    SolidConcat(Split(a), Split(b));
    var x, y := Solid(Split(a)), Solid(Split(b));
    JoinEmpty(x);
    JoinEmpty(y);
    if x == [] {
      assert x + y == y;
    } else if y == [] {
      assert x + y == x;
    } else {
      JoinConcat(x, y);
    }
    if '/' !in a {
      SplitPlain(a, "", [""]);
      assert a + "" == a && a + [""][0] == a && [""][1..] == [];
      assert Split(a) == [a] && [a][1..] == [];
    }
  }

  lemma JoinEmpty(parts: seq<string>)
    requires forall p :: p in parts ==> !IsBlank(p)
    ensures Join(parts) == "" <==> parts == []
  {
    if parts != [] {
      assert parts[0] in parts;
    }
  }

  /** Space, tab and line ends are trimmed, and no visible ASCII character is. */
  lemma SpacesAre(c: char)
    ensures (c as int) < 0x80 ==> (IsSpace(c) <==> c in {' ', '\t', '\n', '\r', 0x0B as char, 0x0C as char})
  {
  }

  // ---- Directory and name ----

  function Name(path: string): string {
    Split(path)[|Split(path)| - 1]
  }

  function Dir(path: string): string {
    var parts := Split(path);
    if |parts| <= 1 then "" else Join(parts[..|parts| - 1])
  }

  /** The path that a directory and a name are taken to stand for. */
  function Path(dir: string, name: string): string {
    if dir == "" then name else dir + "/" + name
  }

  /** The one kind of path that its directory and name do not give back: a name behind a single leading separator. */
  predicate RootedName(path: string) {
    path != "" && path[0] == '/' && '/' !in path[1..]
  }

  lemma {:induction false} JoinInit(parts: seq<string>)
    requires |parts| > 1
    ensures Join(parts) == Join(parts[..|parts| - 1]) + "/" + parts[|parts| - 1]
  {
    var init, last := parts[..|parts| - 1], parts[|parts| - 1];
    if |parts| == 2 {
      assert parts[1..] == [last] && init == [parts[0]];
    } else {
      JoinInit(parts[1..]);
      assert parts[1..][..|parts| - 2] == init[1..];
      ConcatAssociates(parts[0] + "/", Join(init[1..]) + "/", last);
      ConcatAssociates(parts[0] + "/", Join(init[1..]), "/");
    }
  }

  lemma RootedSplit(path: string)
    ensures RootedName(path) <==> |Split(path)| == 2 && Split(path)[0] == ""
  {
    JoinOfSplit(path);
    var parts := Split(path);
    if RootedName(path) {
      var name := path[1..];
      SplitPlain(name, "", [""]);
      assert name + "" == name && [""][1..] == [] && name + [""][0] == name;
      assert Split(name) == [name];
    }
    if |parts| == 2 && parts[0] == "" {
      assert parts[1..] == [parts[1]];
      assert path == "" + "/" + parts[1] == "/" + parts[1];
      assert parts[1] in parts && path[1..] == parts[1];
    }
  }

  /** Directory and name give the path back if and only if it is not a rooted name. */
  lemma PathOfParts(path: string)
    ensures Path(Dir(path), Name(path)) == path <==> !RootedName(path)
  {
    var parts := Split(path);
    JoinOfSplit(path);
    RootedSplit(path);
    if |parts| > 1 {
      JoinInit(parts);
      var init := parts[..|parts| - 1];
      assert |init| > 1 ==> Join(init) != "";
      assert |init| == 1 ==> init == [parts[0]];
      assert |path| == |Join(init)| + 1 + |Name(path)|;
    }
  }

  /** The name is what follows the last separator, and the directory what precedes it. */
  lemma LastSeparator(path: string)
    ensures '/' !in Name(path)
    ensures if '/' in path then path == Dir(path) + "/" + Name(path) else Dir(path) == "" && Name(path) == path
  {
    var parts := Split(path);
    JoinOfSplit(path);
    assert parts[|parts| - 1] in parts;
    if |parts| > 1 {
      JoinInit(parts);
      assert path[|Join(parts[..|parts| - 1])|] == '/';
    } else {
      assert parts == [parts[0]] && parts[0] in parts;
    }
  }

  /** Normalised paths are told apart by directory and name. */
  lemma ListingInjective(a: string, b: string)
    requires Normalize(a) == a && Normalize(b) == b
    requires Dir(a) == Dir(b) && Name(a) == Name(b)
    ensures a == b
  {
    NormalizedNotRooted(a);
    NormalizedNotRooted(b);
    PathOfParts(a);
    PathOfParts(b);
  }

  lemma NormalizedNotRooted(path: string)
    requires Normalize(path) == path
    ensures !RootedName(path)
  {
    NormalizeSettles(path);
    RootedSplit(path);
    assert Split(path)[0] in Split(path);
    assert IsBlank("");
  }

  /** The remote path given to a file uploaded together with others. */
  function UploadPath(dir: string, fileName: string): string {
    Normalize(dir) + "/" + fileName
  }

  /**
   * A file uploaded with others to a directory is found under it; uploaded to the root, it gets a rooted name, which is
   * not normalised and is listed exactly as the file uploaded alone under the plain name.
   */
  lemma UploadPathIff(dir: string, fileName: string)
    requires '/' !in fileName
    ensures Path(Dir(UploadPath(dir, fileName)), Name(UploadPath(dir, fileName))) == UploadPath(dir, fileName) <==>
            Normalize(dir) != ""
    ensures Normalize(dir) == "" ==> Dir(UploadPath(dir, fileName)) == Dir(fileName)
                                     && Name(UploadPath(dir, fileName)) == Name(fileName)
  {
    var path := UploadPath(dir, fileName);
    PathOfParts(path);
    if Normalize(dir) == "" {
      assert path == "/" + fileName && path[1..] == fileName;
      SplitPlain(fileName, "", [""]);
      assert fileName + "" == fileName && fileName + [""][0] == fileName && [""][1..] == [];
      assert Split(fileName) == [fileName];
      assert Split(path) == ["", fileName] && ["", fileName][..1] == [""];
    } else {
      assert path[1..][|Normalize(dir)| - 1] == '/';
    }
  }

  // ---- The file list ----

  datatype Status = NotDownloaded | Downloading | Downloaded

  datatype FileRow = FileRow(name: string, dir: string, status: Status, remotePath: string, localPath: string)

  /** No chunk is recorded that the file does not have. */
  ghost predicate InRange(e: Entry) {
    forall c :: c in e.received ==> c < |e.meta.chunks|
  }

  /** In every sound Receiver, so in every one that a run reaches, the file list can be made: no count underflows. */
  lemma SoundInRange(r: R.Receiver)
    requires RS.Sound(r)
    ensures forall e :: e in r.index ==> InRange(e)
  {
    assert forall e :: e in r.index ==> Segment(e);
  }

  /** Distinct numbers below `n`: there are at most `n` of them, and `n` only if they are all there. */
  lemma Pigeonhole(s: set<nat>, n: nat)
    requires forall i :: i in s ==> i < n
    ensures |s| <= n
    ensures |s| == n <==> s == FirstNats(n)
  {
    var rest := FirstNats(n) - s;
    assert s + rest == FirstNats(n) && |s| + |rest| == n;
  }

  /** One row of the file list. */
  method ListEntry(e: Entry) returns (file: FileRow)
    requires InRange(e)
    ensures Lists(file, e)
  {
    var remotePath := e.meta.path;
    var tokens := Split(remotePath);
    var fileName := tokens[|tokens| - 1];
    var directoryPath;
    if |tokens| <= 1 {
      directoryPath := "";
    } else {
      tokens := tokens[..|tokens| - 1];
      directoryPath := Join(tokens);
    }
    Pigeonhole(e.received, |e.meta.chunks|);
    var chunksTotal: nat := |e.meta.chunks|;
    var chunksLeft: nat := chunksTotal - |e.received|;
    var status :=
      if chunksLeft == chunksTotal then NotDownloaded else if chunksLeft > 0 then Downloading else Downloaded;
    StatusMeans(e, status);
    file := FileRow(fileName, directoryPath, status, remotePath, e.localPath);
  }

  /** The directories and rows of the file list, as accumulated over the entries. */
  method ConvertIndex(entries: seq<Entry>) returns (dirs: set<string>, files: seq<FileRow>)
    requires forall e :: e in entries ==> InRange(e)
    ensures |files| == |entries|
    ensures forall i :: 0 <= i < |files| ==> Lists(files[i], entries[i])
    ensures forall d :: d in dirs <==> d == "" || exists f :: f in files && f.dir == d
  {
    dirs := {""};
    files := [];
    for i := 0 to |entries|
      invariant |files| == i
      invariant forall j :: 0 <= j < i ==> Lists(files[j], entries[j])
      invariant forall d :: d in dirs <==> d == "" || exists f :: f in files && f.dir == d
    {
      assert entries[i] in entries;
      var file := ListEntry(entries[i]);
      ghost var before := files;
      files := files + [file];
      assert forall f :: f in files <==> f in before || f == file;
      dirs := dirs + {file.dir};
    }
  }

  /**
   * A row shows the entry's path, split, and how far its download is: not begun while nothing is received (which is
   * all that is ever said of an empty file), and complete exactly when the search finds no chunk missing.
   */
  ghost predicate Lists(f: FileRow, e: Entry) {
    && f.remotePath == e.meta.path && f.name == Name(e.meta.path) && f.dir == Dir(e.meta.path)
    && f.localPath == e.localPath
    && (f.status == NotDownloaded <==> e.received == {})
    && (f.status == Downloaded <==> e.received != {} && R.FirstMissing(e).None?)
  }

  lemma StatusMeans(e: Entry, status: Status)
    requires InRange(e) && |e.received| <= |e.meta.chunks|
    requires var left := |e.meta.chunks| - |e.received|;
             status == if left == |e.meta.chunks| then NotDownloaded else if left > 0 then Downloading else Downloaded
    ensures status == NotDownloaded <==> e.received == {}
    ensures status == Downloaded <==> e.received != {} && R.FirstMissing(e).None?
  {
    CountAgreesWithSearch(e);
  }

  /**
   * Counting received chunks and searching for a missing one agree: all are there exactly when none is found missing.
   */
  lemma CountAgreesWithSearch(e: Entry)
    requires InRange(e)
    ensures |e.received| <= |e.meta.chunks|
    ensures |e.received| == |e.meta.chunks| <==> R.FirstMissing(e).None?
  {
    var n := |e.meta.chunks|;
    Pigeonhole(e.received, n);
    if R.FirstMissing(e).None? {
      assert e.received == FirstNats(n);
    }
  }
}
