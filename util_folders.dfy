/** Folder and prefix helpers for object stores whose "folders" are key
    prefixes: the folders implied by a stream of sorted file paths, prefix
    stripping and joining, folder ids, and the files-only item properties. */
module Folders {
  import opened Wrappers
  import opened Strings
  import opened Values
  import opened WebFs

  // ---------------------------------------------------------------------------
  // joining parts

  /** Joining two non-empty runs of parts puts one delimiter between them. */
  lemma {:induction false} JoinAppend(a: seq<string>, b: seq<string>, d: char)
    requires |a| >= 1 && |b| >= 1
    ensures Join(a + b, d) == Join(a, d) + [d] + Join(b, d)
    decreases |a|
  {
    if |a| == 1 {
      assert (a + b)[1..] == b;
    } else {
      JoinAppend(a[1..], b, d);
      assert (a + b)[1..] == a[1..] + b;
    }
  }

  // ---------------------------------------------------------------------------
  // folders implied by a path

  /** `path[len(prefix):]`: Python slicing past the end gives the empty string. */
  function AfterPrefix(path: string, prefix: string): string {
    if |prefix| <= |path| then path[|prefix|..] else ""
  }

  /** The `index`-th folder of a path split into parts: the root prefix, the first `index` parts joined, and a delimiter. */
  function FolderAt(prefix: string, parts: seq<string>, d: char, index: nat): string
    requires 1 <= index <= |parts|
  {
    prefix + Join(parts[..index], d) + [d]
  }

  /** The folders a file path lies in, shallow to deep. */
  function FolderChain(prefix: string, d: char, path: string): (r: seq<string>)
    ensures |r| == CountChar(AfterPrefix(path, prefix), d)
  {
    var parts := Split(AfterPrefix(path, prefix), d);
    seq(|parts| - 1, i requires 0 <= i < |parts| - 1 => FolderAt(prefix, parts, d, i + 1))
  }

  /** A path with k delimiters after the root prefix lies in k folders; each
      starts with the root prefix, ends with the delimiter and is a prefix of
      the next one; and when the path starts with the root prefix each is a
      prefix of the path itself. */
  lemma FolderChainShape(prefix: string, d: char, path: string)
    ensures var r := FolderChain(prefix, d, path);
            (forall i :: 0 <= i < |r| ==> StartsWith(r[i], prefix) && |r[i]| > 0 && r[i][|r[i]| - 1] == d) &&
            (forall i :: 0 <= i < |r| - 1 ==> StartsWith(r[i + 1], r[i])) &&
            (StartsWith(path, prefix) ==> forall i :: 0 <= i < |r| ==> StartsWith(path, r[i]))
  {
    var rest := AfterPrefix(path, prefix);
    var parts := Split(rest, d);
    var r := FolderChain(prefix, d, path);
    forall i | 0 <= i < |r| ensures StartsWith(r[i], prefix) && |r[i]| > 0 && r[i][|r[i]| - 1] == d {
      FolderAtShape(prefix, parts, d, i + 1);
    }
    forall i | 0 <= i < |r| - 1 ensures StartsWith(r[i + 1], r[i]) {
      FolderAtNext(prefix, parts, d, i + 1);
    }
    if StartsWith(path, prefix) {
      JoinSplit(rest, d);
      assert path == prefix + Join(parts, d);
      forall i | 0 <= i < |r| ensures StartsWith(path, r[i]) {
        FolderAtInPath(prefix, parts, d, i + 1);
      }
    }
  }

  lemma FolderAtShape(prefix: string, parts: seq<string>, d: char, index: nat)
    requires 1 <= index <= |parts|
    ensures var f := FolderAt(prefix, parts, d, index);
            StartsWith(f, prefix) && |f| > 0 && f[|f| - 1] == d
  {
    var j := Join(parts[..index], d);
    assert FolderAt(prefix, parts, d, index) == prefix + (j + [d]);
  }

  lemma FolderAtNext(prefix: string, parts: seq<string>, d: char, index: nat)
    requires 1 <= index < |parts|
    ensures StartsWith(FolderAt(prefix, parts, d, index + 1), FolderAt(prefix, parts, d, index))
  {
    assert parts[..index + 1] == parts[..index] + [parts[index]];
    JoinAppend(parts[..index], [parts[index]], d);
    var f := FolderAt(prefix, parts, d, index);
    assert FolderAt(prefix, parts, d, index + 1) == f + (parts[index] + [d]);
  }

  lemma FolderAtInPath(prefix: string, parts: seq<string>, d: char, index: nat)
    requires 1 <= index < |parts|
    ensures StartsWith(prefix + Join(parts, d), FolderAt(prefix, parts, d, index))
  {
    assert parts == parts[..index] + parts[index..];
    JoinAppend(parts[..index], parts[index..], d);
    var f := FolderAt(prefix, parts, d, index);
    assert prefix + Join(parts, d) == f + Join(parts[index..], d);
  }

  /** The folders of `result` that were not reported for the previous path, in order. */
  function Unseen(result: seq<string>, prev: set<string>): (r: seq<string>)
    ensures forall i :: 0 <= i < |r| ==> r[i] !in prev && r[i] in result
    ensures forall f :: f in result && f !in prev ==> f in r
  {
    if result == [] then []
    else (if result[0] in prev then [] else [result[0]]) + Unseen(result[1..], prev)
  }

  /** Builds the folder list of a stream of file paths, one path at a time.
      Paths are expected in lexicographic order, so a folder shared with the
      previous path has already been reported. */
  class FolderFromPathBuilder {
    const prefix: string
    const delim: char
    var prevFolders: set<string>

    constructor (rootPrefix: string, delim: char)
      ensures prefix == rootPrefix && this.delim == delim && prevFolders == {}
    {
      prefix := rootPrefix;
      this.delim := delim;
      prevFolders := {};
    }

    /** `feed_path`: the folders of `path` that the previous path did not lie
        in, shallow to deep; the folders of `path` become the previous ones. */
    method FeedPath(path: string) returns (folders: seq<string>)
      modifies this
      ensures folders == Unseen(FolderChain(prefix, delim, path), old(prevFolders))
      ensures prevFolders == set f | f in FolderChain(prefix, delim, path)
    {
      var result := FoldersOfPath(prefix, delim, path);
      var prev := prevFolders;
      prevFolders := set f | f in result;
      folders := Unreported(result, prev);
    }
  }

  /** The loop of `feed_path` that lists the folders a path lies in. */
  method FoldersOfPath(prefix: string, delim: char, path: string) returns (result: seq<string>)
    ensures result == FolderChain(prefix, delim, path)
  {
    var rest := AfterPrefix(path, prefix);
    var parts := Split(rest, delim);
    ghost var chain := FolderChain(prefix, delim, path);
    result := [];
    var index := 1;
    while index < |parts|
      invariant 1 <= index <= |parts|
      invariant result == chain[..index - 1]
    {
      assert chain[index - 1] == prefix + Join(parts[..index], delim) + [delim];
      assert chain[..index] == chain[..index - 1] + [chain[index - 1]];
      result := result + [prefix + Join(parts[..index], delim) + [delim]];
      index := index + 1;
    }
  }

  /** The comprehension of `feed_path` that keeps the folders not reported for the previous path. */
  method Unreported(result: seq<string>, prev: set<string>) returns (folders: seq<string>)
    ensures folders == Unseen(result, prev)
  {
    folders := [];
    var k := 0;
    while k < |result|
      invariant 0 <= k <= |result|
      invariant folders == Unseen(result[..k], prev)
    {
      assert result[..k + 1] == result[..k] + [result[k]];
      UnseenSnoc(result[..k], result[k], prev);
      if result[k] !in prev {
        folders := folders + [result[k]];
      }
      k := k + 1;
    }
    assert result[..k] == result;
  }

  lemma {:induction false} UnseenSnoc(s: seq<string>, x: string, prev: set<string>)
    ensures Unseen(s + [x], prev) == Unseen(s, prev) + (if x in prev then [] else [x])
  {
    if s == [] {
      assert [x][1..] == [];
    } else {
      assert (s + [x])[1..] == s[1..] + [x];
      UnseenSnoc(s[1..], x, prev);
    }
  }

  /** The folders reported for a stream of paths, starting from no previous folders. */
  function FeedAll(prefix: string, d: char, paths: seq<string>, prev: set<string>): seq<string>
    decreases |paths|
  {
    if paths == [] then []
    else
      var chain := FolderChain(prefix, d, paths[0]);
      Unseen(chain, prev) + FeedAll(prefix, d, paths[1..], set f | f in chain)
  }

  /** The folders of a path of two folder names and a file name. */
  lemma ChainOfTwo(x: string, y: string, file: string)
    requires '/' !in x && '/' !in y && '/' !in file
    ensures FolderChain("", '/', x + "/" + y + "/" + file) == [x + "/", x + "/" + y + "/"]
  {
    var parts := [x, y, file];
    var path := x + "/" + y + "/" + file;
    JoinCons(y, [file], '/');
    JoinCons(x, [y, file], '/');
    assert Join(parts, '/') == path;
    SplitJoin(parts, '/');
    assert AfterPrefix(path, "") == path;
    assert parts[..1] == [x] && parts[..2] == [x, y];
    assert [x, y][1..] == [y];
    assert Join([x, y], '/') == x + "/" + y;
    var r := FolderChain("", '/', path);
    assert Split(AfterPrefix(path, ""), '/') == parts;
    assert |r| == 2;
    assert r[0] == FolderAt("", parts, '/', 1) == "" + x + "/" == x + "/";
    assert r[1] == FolderAt("", parts, '/', 2) == "" + (x + "/" + y) + "/" == x + "/" + y + "/";
  }

  /** The folders of a path of three folder names and a file name. */
  lemma ChainOfThree(x: string, y: string, z: string, file: string)
    requires '/' !in x && '/' !in y && '/' !in z && '/' !in file
    ensures FolderChain("", '/', x + "/" + y + "/" + z + "/" + file) == [x + "/", x + "/" + y + "/", x + "/" + y + "/" + z + "/"]
  {
    var parts := [x, y, z, file];
    var path := x + "/" + y + "/" + z + "/" + file;
    JoinCons(z, [file], '/');
    JoinCons(y, [z, file], '/');
    JoinCons(x, [y, z, file], '/');
    assert Join(parts, '/') == path;
    SplitJoin(parts, '/');
    assert AfterPrefix(path, "") == path;
    assert parts[..1] == [x] && parts[..2] == [x, y] && parts[..3] == [x, y, z];
    assert [x, y][1..] == [y] && [x, y, z][1..] == [y, z] && [y, z][1..] == [z];
    assert Join([x, y], '/') == x + "/" + y;
    JoinCons(y, [z], '/');
    JoinCons(x, [y, z], '/');
    assert Join([x, y, z], '/') == x + "/" + y + "/" + z;
    var r := FolderChain("", '/', path);
    assert Split(AfterPrefix(path, ""), '/') == parts;
    assert |r| == 3;
    assert r[0] == FolderAt("", parts, '/', 1) == "" + x + "/" == x + "/";
    assert r[1] == FolderAt("", parts, '/', 2) == "" + (x + "/" + y) + "/" == x + "/" + y + "/";
    assert r[2] == FolderAt("", parts, '/', 3) == "" + (x + "/" + y + "/" + z) + "/" == x + "/" + y + "/" + z + "/";
  }

  lemma JoinCons(x: string, rest: seq<string>, d: char)
    requires |rest| >= 1
    ensures Join([x] + rest, d) == x + [d] + Join(rest, d)
  {
    assert ([x] + rest)[1..] == rest;
  }

  lemma UnseenLastOfThree(f1: string, f2: string, f3: string, prev: set<string>)
    requires f1 in prev && f2 in prev && f3 !in prev
    ensures Unseen([f1, f2, f3], prev) == [f3]
  {
    assert [f1, f2, f3][1..] == [f2, f3] && [f2, f3][1..] == [f3] && [f3][1..] == [];
    assert Unseen([f3], prev) == [f3];
  }

  lemma UnseenBothOfTwo(f1: string, f2: string, prev: set<string>)
    requires f1 !in prev && f2 !in prev
    ensures Unseen([f1, f2], prev) == [f1, f2]
  {
    assert [f1, f2][1..] == [f2] && [f2][1..] == [];
    assert Unseen([f2], prev) == [f2];
    assert [f1] + [f2] == [f1, f2];
  }

  lemma FeedStep(paths: seq<string>, prev: set<string>, chain: seq<string>, reported: seq<string>, next: set<string>)
    requires paths != [] && FolderChain("", '/', paths[0]) == chain
    requires Unseen(chain, prev) == reported && (set f | f in chain) == next
    ensures FeedAll("", '/', paths, prev) == reported + FeedAll("", '/', paths[1..], next)
  {
  }

  /** Two sibling folders under the same parent are different folders. */
  lemma SiblingsDiffer(ab: string, z1: string, z2: string)
    requires z1 != z2
    ensures ab + z1 + "/" != ab + z2 + "/"
  {
    if |z1| == |z2| {
      assert (ab + z1 + "/")[|ab|..|ab| + |z1|] == z1;
      assert (ab + z2 + "/")[|ab|..|ab| + |z2|] == z2;
    }
  }

  /** A file in folder x/y followed by files in two of its subfolders report
      x/, x/y/ and the two subfolders, each once; the last path's folders are
      what the paths after them are compared with. */
  lemma FeedFamily(x: string, y: string, z1: string, z2: string, f0: string, f1: string, f2: string,
                   rest: seq<string>, prev: set<string>)
    requires '/' !in x && '/' !in y && '/' !in z1 && '/' !in z2
    requires '/' !in f0 && '/' !in f1 && '/' !in f2
    requires z1 != z2 && x + "/" !in prev && x + "/" + y + "/" !in prev
    ensures var a := x + "/";
            var ab := a + y + "/";
            FeedAll("", '/', [ab + f0, ab + z1 + "/" + f1, ab + z2 + "/" + f2] + rest, prev)
              == [a, ab, ab + z1 + "/", ab + z2 + "/"] + FeedAll("", '/', rest, {a, ab, ab + z2 + "/"})
  {
    var a := x + "/";
    var ab := a + y + "/";
    var abc := ab + z1 + "/";
    var abd := ab + z2 + "/";
    var tail2 := [abd + f2] + rest;
    var tail1 := [abc + f1] + tail2;
    assert [ab + f0, abc + f1, abd + f2] + rest == [ab + f0] + tail1;
    calc {
      FeedAll("", '/', [ab + f0] + tail1, prev);
      == { FeedFirstPath(x, y, f0, tail1, prev); }
      [a, ab] + FeedAll("", '/', tail1, {a, ab});
      == { assert |a| < |ab| < |abc|;
           FeedSubfolderPath(x, y, z1, f1, tail2, {a, ab}); }
      [a, ab] + ([abc] + FeedAll("", '/', tail2, {a, ab, abc}));
      == { assert |a| < |ab| < |abd|;
           SiblingsDiffer(ab, z1, z2);
           FeedSubfolderPath(x, y, z2, f2, rest, {a, ab, abc}); }
      [a, ab] + ([abc] + ([abd] + FeedAll("", '/', rest, {a, ab, abd})));
      [a, ab, abc, abd] + FeedAll("", '/', rest, {a, ab, abd});
    }
  }

  /** A path x/y/file with both folders new reports both. */
  lemma FeedFirstPath(x: string, y: string, file: string, tail: seq<string>, prev: set<string>)
    requires '/' !in x && '/' !in y && '/' !in file
    requires x + "/" !in prev && x + "/" + y + "/" !in prev
    ensures var a := x + "/";
            var ab := a + y + "/";
            FeedAll("", '/', [ab + file] + tail, prev) == [a, ab] + FeedAll("", '/', tail, {a, ab})
  {
    var a := x + "/";
    var ab := a + y + "/";
    ChainOfTwo(x, y, file);
    UnseenBothOfTwo(a, ab, prev);
    assert ([ab + file] + tail)[0] == ab + file && ([ab + file] + tail)[1..] == tail;
    assert (set f | f in [a, ab]) == {a, ab};
    FeedStep([ab + file] + tail, prev, [a, ab], [a, ab], {a, ab});
  }

  /** A path x/y/z/file after a path that reported x/ and x/y/ reports x/y/z/
      when it is new. */
  lemma FeedSubfolderPath(x: string, y: string, z: string, file: string, tail: seq<string>, prev: set<string>)
    requires '/' !in x && '/' !in y && '/' !in z && '/' !in file
    requires x + "/" in prev && x + "/" + y + "/" in prev && x + "/" + y + "/" + z + "/" !in prev
    ensures var a := x + "/";
            var ab := a + y + "/";
            var abc := ab + z + "/";
            FeedAll("", '/', [abc + file] + tail, prev) == [abc] + FeedAll("", '/', tail, {a, ab, abc})
  {
    var a := x + "/";
    var ab := a + y + "/";
    var abc := ab + z + "/";
    ChainOfThree(x, y, z, file);
    UnseenLastOfThree(a, ab, abc, prev);
    assert ([abc + file] + tail)[0] == abc + file && ([abc + file] + tail)[1..] == tail;
    assert (set f | f in [a, ab, abc]) == {a, ab, abc};
    FeedStep([abc + file] + tail, prev, [a, ab, abc], [abc], {a, ab, abc});
  }

  /** The example of the builder's documentation, for any folder and file
      names without a delimiter (the documentation uses a, b, c, d, x, y and
      file0 to file5): six sorted file paths report the eight folders they lie
      in, each once, shallow to deep. */
  lemma FeedAllExample(a: string, b: string, c: string, d: string, x: string, y: string,
                       f0: string, f1: string, f2: string, f3: string, f4: string, f5: string)
    requires '/' !in a && '/' !in b && '/' !in c && '/' !in d && '/' !in x && '/' !in y
    requires '/' !in f0 && '/' !in f1 && '/' !in f2 && '/' !in f3 && '/' !in f4 && '/' !in f5
    requires a != "" && b != "" && a[0] != b[0] && c != d && x != y
    ensures FeedAll("", '/', [a + "/" + b + "/" + f0, a + "/" + b + "/" + c + "/" + f1, a + "/" + b + "/" + d + "/" + f2,
                              b + "/" + b + "/" + f5, b + "/" + b + "/" + x + "/" + f3, b + "/" + b + "/" + y + "/" + f4], {})
         == [a + "/", a + "/" + b + "/", a + "/" + b + "/" + c + "/", a + "/" + b + "/" + d + "/",
             b + "/", b + "/" + b + "/", b + "/" + b + "/" + x + "/", b + "/" + b + "/" + y + "/"]
  {
    var ab := a + "/" + b + "/";
    var bb := b + "/" + b + "/";
    var later := [bb + f5, bb + x + "/" + f3, bb + y + "/" + f4];
    var seen := {a + "/", ab, ab + d + "/"};
    assert (b + "/")[0] == b[0] && bb[0] == b[0];
    assert (a + "/")[0] == a[0] && ab[0] == a[0] && (ab + d + "/")[0] == a[0];
    FeedFamily(b, b, x, y, f5, f3, f4, [], seen);
    FeedFamily(a, b, c, d, f0, f1, f2, later, {});
    assert later + [] == later;
    assert [ab + f0, ab + c + "/" + f1, ab + d + "/" + f2] + later
        == [ab + f0, ab + c + "/" + f1, ab + d + "/" + f2, bb + f5, bb + x + "/" + f3, bb + y + "/" + f4];
  }

  // ---------------------------------------------------------------------------
  // common prefix

  /** `_common_prefix`: the longest common prefix of two strings. */
  function CommonPrefix(p1: string, p2: string): (r: string)
    ensures StartsWith(p1, r) && StartsWith(p2, r)
    ensures |r| == |p1| || |r| == |p2| || p1[|r|] != p2[|r|]
  {
    if p1 == [] || p2 == [] || p1[0] != p2[0] then ""
    else [p1[0]] + CommonPrefix(p1[1..], p2[1..])
  }

  /** No common prefix is longer than `_common_prefix`'s. */
  lemma {:induction false} CommonPrefixLongest(p1: string, p2: string, q: string)
    requires StartsWith(p1, q) && StartsWith(p2, q)
    ensures |q| <= |CommonPrefix(p1, p2)|
  {
    if q != [] {
      assert p1[0] == q[0] == p2[0];
      assert StartsWith(p1[1..], q[1..]) && StartsWith(p2[1..], q[1..]) by {
        assert p1[1..][..|q| - 1] == p1[..|q|][1..];
        assert p2[1..][..|q| - 1] == p2[..|q|][1..];
      }
      CommonPrefixLongest(p1[1..], p2[1..], q[1..]);
    }
  }

  // ---------------------------------------------------------------------------
  // files-only properties

  /** A property that applies to files only: None on a container. */
  function FileOnly(item: ContainerItem, property: ContainerItem -> Value): (r: Value)
    ensures item.isContainer ==> r == Null
    ensures !item.isContainer ==> r == property(item)
  {
    if item.isContainer then Null else property(item)
  }

  // ---------------------------------------------------------------------------
  // prefixes

  /** `strip_prefix`: drops `prefix` when the string starts with it (an empty
      prefix drops nothing), then every leading delimiter character (an empty
      delimiter set drops nothing). */
  function StripPrefix(s: string, prefix: string, delim: string): (r: string)
    ensures EndsWith(s, r)
    ensures delim != "" ==> r == "" || r[0] !in delim
    ensures prefix != "" && StartsWith(s, prefix) && delim == "" ==> r == s[|prefix|..]
    ensures (prefix == "" || !StartsWith(s, prefix)) && delim == "" ==> r == s
    ensures var t := if prefix != "" && StartsWith(s, prefix) then s[|prefix|..] else s;
            EndsWith(t, r) && forall i :: 0 <= i < |t| - |r| ==> t[i] in delim
  {
    var t := DropPrefix(s, prefix);
    if delim != "" then
      var r := LstripChars(t, delim);
      EndsWithTrans(s, t, r);
      r
    else t
  }

  /** The string with `prefix` dropped when it starts with it (an empty prefix drops nothing). */
  function DropPrefix(s: string, prefix: string): (t: string)
    ensures t == if prefix != "" && StartsWith(s, prefix) then s[|prefix|..] else s
    ensures EndsWith(s, t)
  {
    if prefix != "" && StartsWith(s, prefix) then s[|prefix|..] else s
  }

  /** `lstrip(delim)`: drops leading characters of `delim`, and only those. */
  function LstripChars(t: string, delim: string): (r: string)
    ensures EndsWith(t, r)
    ensures r == "" || r[0] !in delim
    ensures forall i :: 0 <= i < |t| - |r| ==> t[i] in delim
  {
    var r := TrimStart(t, InChars(delim));
    assert forall i :: 0 <= i < |t| - |r| ==> InChars(delim)(t[i]);
    assert r == "" || !InChars(delim)(r[0]);
    r
  }

  /** A suffix of a suffix is a suffix. */
  lemma EndsWithTrans(a: string, b: string, c: string)
    requires EndsWith(a, b) && EndsWith(b, c)
    ensures EndsWith(a, c)
  {
    assert a[|a| - |c|..] == a[|a| - |b|..][|b| - |c|..];
  }

  /** Stripping a prefix and delimiter off a key built from them gives the key's remainder back. */
  lemma StripPrefixRoundTrip(prefix: string, d: char, rest: string)
    requires prefix != "" && (rest == "" || rest[0] != d)
    ensures StripPrefix(prefix + [d] + rest, prefix, [d]) == rest
  {
    var s := prefix + [d] + rest;
    assert StartsWith(s, prefix) && s[|prefix|..] == [d] + rest;
    assert ([d] + rest)[1..] == rest;
  }

  /** `os.path.basename` with '/' as the separator: what follows the last '/'. */
  function Basename(path: string): (r: string)
    ensures '/' !in r
    ensures EndsWith(path, r) && (|r| == |path| || path[|path| - |r| - 1] == '/')
  {
    SplitLast(path, '/');
    var parts := Split(path, '/');
    parts[|parts| - 1]
  }

  /** `append_folder_to_prefix`: the prefix and the folder's base name joined by
      the delimiter, with delimiters stripped from both ends. */
  function AppendFolderToPrefix(destinationPrefix: string, folderPath: string, d: char): (r: string)
    ensures r == "" || (r[0] != d && r[|r| - 1] != d)
  {
    var drop := InChars([d]);
    Trim(Join([Trim(destinationPrefix, drop), Basename(TrimEnd(folderPath, drop))], d), drop)
  }

  /** With a clean prefix and folder name the result is the two joined by one delimiter. */
  lemma AppendFolderToCleanPrefix(destinationPrefix: string, name: string, d: char)
    requires '/' !in name
    requires Clean(destinationPrefix, d) && Clean(name, d)
    ensures AppendFolderToPrefix(destinationPrefix, name, d) == destinationPrefix + [d] + name
  {
    TrimClean(destinationPrefix, d);
    TrimClean(name, d);
    SplitJoin([name], '/');
    assert Basename(name) == name;
    var joined := destinationPrefix + [d] + name;
    assert Join([destinationPrefix, name], d) == joined;
    assert Clean(joined, d);
    TrimClean(joined, d);
  }

  /** A string that neither starts nor ends with the delimiter. */
  predicate Clean(s: string, d: char) {
    s != "" && s[0] != d && s[|s| - 1] != d
  }

  lemma TrimClean(s: string, d: char)
    requires Clean(s, d)
    ensures TrimStart(s, InChars([d])) == s && TrimEnd(s, InChars([d])) == s && Trim(s, InChars([d])) == s
  {
    assert !InChars([d])(s[0]) && !InChars([d])(s[|s| - 1]);
  }

  // ---------------------------------------------------------------------------
  // folder ids

  /** `get_folder_id`: no folder gives ""; with `prefixRoot`, an empty id or
      the bare delimiter is the root ""; any other id ends with the delimiter,
      which is added when missing. */
  function GetFolderId(info: Option<ContainerItem>, delim: string, prefixRoot: bool): (r: string)
    ensures info.None? ==> r == ""
    ensures info.Some? && prefixRoot && (info.value.id == "" || info.value.id == delim) ==> r == ""
    ensures info.Some? && !(prefixRoot && (info.value.id == "" || info.value.id == delim)) ==>
              EndsWith(r, delim) && StartsWith(r, info.value.id) &&
              (r == info.value.id <==> EndsWith(info.value.id, delim)) &&
              (!EndsWith(info.value.id, delim) ==> r == info.value.id + delim)
  {
    match info
    case None => ""
    case Some(item) =>
      if prefixRoot && (item.id == "" || item.id == delim) then ""
      else if !EndsWith(item.id, delim) then item.id + delim
      else item.id
  }

  /** A folder id is its own folder id. */
  lemma GetFolderIdIdempotent(item: ContainerItem, delim: string, prefixRoot: bool)
    ensures var r := GetFolderId(Some(item), delim, prefixRoot);
            GetFolderId(Some(item.(id := r)), delim, prefixRoot) == r
  {
    var r := GetFolderId(Some(item), delim, prefixRoot);
    if r != "" && !(prefixRoot && (item.id == "" || item.id == delim)) && !EndsWith(item.id, delim) {
      assert r[|r| - |delim|..] == delim;
    }
  }
}
