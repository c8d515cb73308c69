/**
 * Test discovery of builder/test_discovery.go: the walk that collects
 * `*_test.go` files while skipping `vendor`, `node_modules` and hidden
 * directories (the walk root included), the `package` clause parser over
 * the first 512 bytes of a file, and where each file lands in the unified
 * test suite. The file system is a tree whose directories list their
 * entries in the order `filepath.Walk` visits them (lexical order).
 */
module TestDiscovery {
  import opened Wrappers
  import opened GoStrings
  import FilePath

  /** A file-system entry; a file's content is `None` when it cannot be opened. */
  datatype Entry =
    | File(name: string, content: Option<string>)
    | Dir(name: string, children: seq<Entry>)

  /** `TestFile`. */
  datatype TestFile = TestFile(path: string, packageName: string, relativePath: string)

  const TestSuffix: string := "_test.go"
  const PackageHeader: string := "package "
  const ReadLimit: nat := 512

  // ---- extractPackageName ----

  /** The part of a file `file.Read` fills into the 512-byte buffer. */
  function Head(content: string): (r: string)
    ensures |r| <= ReadLimit && HasPrefix(content, r)
    ensures |content| <= ReadLimit ==> r == content
  {
    if |content| <= ReadLimit then content else content[..ReadLimit]
  }

  /** A line that, trimmed, starts with `package `. */
  predicate IsPackageLine(line: string) {
    HasPrefix(TrimSpace(line), PackageHeader)
  }

  /** The package a single line declares, or `""` when it is not a package line. */
  function LineName(line: string): (r: string)
    ensures r != "" <==> IsPackageLine(line)
    ensures r != "" ==> |Fields(TrimSpace(line))| >= 2 && r == Fields(TrimSpace(line))[1]
  {
    var parts := Fields(TrimSpace(line));
    PackageLineHasName(line);
    if IsPackageLine(line) && |parts| >= 2 then parts[1] else ""
  }

  /** The package each line declares. */
  function LineNames(lines: seq<string>): (r: seq<string>)
    ensures |r| == |lines| && forall i :: 0 <= i < |lines| ==> r[i] == LineName(lines[i])
  {
    seq(|lines|, i requires 0 <= i < |lines| => LineName(lines[i]))
  }

  /** The first non-empty name, or `""` when there is none. */
  function FirstName(names: seq<string>): string {
    if names == [] then ""
    else if names[0] != "" then names[0]
    else FirstName(names[1..])
  }

  /** The name declared by the first package line, or `""` when there is none. */
  function FirstPackage(lines: seq<string>): string {
    FirstName(LineNames(lines))
  }

  /** What `extractPackageName` returns for a file with this content. */
  function PackageName(content: Option<string>): string {
    match content
    case None => ""
    case Some(text) => FirstPackage(Split(Head(text), '\n'))
  }

  /** `extractPackageName`: the line loop with its early return. */
  method ExtractPackageName(content: Option<string>) returns (name: string)
    ensures name == PackageName(content)
  {
    if content.None? {
      return "";
    }
    var lines := Split(Head(content.value), '\n');
    ghost var names := LineNames(lines);
    for i := 0 to |lines|
      invariant FirstName(names[i..]) == FirstPackage(lines)
    {
      var line := TrimSpace(lines[i]);
      if HasPrefix(line, PackageHeader) {
        var parts := Fields(line);
        if |parts| >= 2 {
          assert names[i..][0] == names[i] == parts[1];
          return parts[1];
        }
      }
      assert names[i..][0] == names[i] == "";
      assert names[i..][1..] == names[i + 1..];
    }
    return "";
  }

  // ---- DiscoverTests ----

  /** Directories the walk does not enter. */
  predicate Skipped(name: string) {
    name == "vendor" || name == "node_modules" || HasPrefix(name, ".")
  }

  predicate IsTestFileName(name: string) {
    HasSuffix(name, TestSuffix)
  }

  /** `filepath.Rel(root, path)` one level down from `rel`. */
  function RelJoin(rel: string, name: string): string {
    if rel == "." then name else FilePath.Join(rel, name)
  }

  /** The test files found under `e`, whose path is `path` and whose path relative to the root is `rel`. */
  function Discovered(e: Entry, path: string, rel: string): (r: seq<TestFile>)
    ensures e.File? ==> r == if IsTestFileName(e.name) then [TestFile(path, PackageName(e.content), rel)] else []
    ensures e.Dir? && Skipped(e.name) ==> r == []
    decreases e, 1
  {
    match e
    case File(name, content) =>
      if IsTestFileName(name) then [TestFile(path, PackageName(content), rel)] else []
    case Dir(name, children) =>
      if Skipped(name) then [] else DiscoveredAll(children, path, rel)
  }

  /** The test files found under each child of a directory, in walk order. */
  function DiscoveredAll(children: seq<Entry>, path: string, rel: string): seq<TestFile>
    decreases children, 0
  {
    if children == [] then []
    else
      var c := children[0];
      Discovered(c, FilePath.Join(path, c.name), RelJoin(rel, c.name)) + DiscoveredAll(children[1..], path, rel)
  }

  /** `DiscoverTests(rootDir)` over the tree rooted at `root`. */
  method DiscoverTests(root: Entry, rootDir: string) returns (testFiles: seq<TestFile>)
    ensures testFiles == Discovered(root, rootDir, ".")
  {
    testFiles := Walk(root, rootDir, ".", []);
  }

  /** The walk callback applied to `e` and, unless it is skipped, to everything below it. */
  method Walk(e: Entry, path: string, rel: string, found: seq<TestFile>) returns (testFiles: seq<TestFile>)
    ensures testFiles == found + Discovered(e, path, rel)
    decreases e, 1
  {
    match e
    case File(name, content) =>
      testFiles := found;
      if HasSuffix(name, TestSuffix) {
        var packageName := ExtractPackageName(content);
        testFiles := testFiles + [TestFile(path, packageName, rel)];
      }
    case Dir(name, children) =>
      if name == "vendor" || name == "node_modules" || HasPrefix(name, ".") {
        return found;
      }
      testFiles := WalkChildren(children, path, rel, found);
  }

  /** The walk over a directory's entries, in order. */
  method WalkChildren(children: seq<Entry>, path: string, rel: string, found: seq<TestFile>)
    returns (testFiles: seq<TestFile>)
    ensures testFiles == found + DiscoveredAll(children, path, rel)
    decreases children, 0
  {
    testFiles := found;
    for i := 0 to |children|
      invariant testFiles == found + DiscoveredAll(children[..i], path, rel)
    {
      var c := children[i];
      ghost var here := Discovered(c, FilePath.Join(path, c.name), RelJoin(rel, c.name));
      DiscoveredAllPrefix(children, i, path, rel);
      AppendAssoc(found, DiscoveredAll(children[..i], path, rel), here);
      testFiles := Walk(c, FilePath.Join(path, c.name), RelJoin(rel, c.name), testFiles);
    }
    assert children[..|children|] == children;
  }

  // ---- CreateUnifiedTestSuite ----

  /** The directory the unified suite is built in. */
  function UnifiedDir(baseDir: string): string {
    FilePath.Join(baseDir, ".unified_tests")
  }

  /** Where a test file is copied: its relative path under the unified directory. */
  function Destination(baseDir: string, t: TestFile): string {
    FilePath.Join(UnifiedDir(baseDir), t.relativePath)
  }

  // ---- Lemmas ----

  /** A package line always has a name after `package`. */
  lemma PackageLineHasName(line: string)
    ensures IsPackageLine(line) ==>
      var parts := Fields(TrimSpace(line));
      |parts| >= 2 && parts[0] == "package"
  {
    if IsPackageLine(line) {
      var t := TrimSpace(line);
      assert HasPrefix(t, PackageHeader);
      assert t != [] && !IsSpace(t[|t| - 1]);
      PackageWords(t);
    }
  }

  /** Text that starts with `package ` and ends in a non-space has at least two fields. */
  lemma PackageWords(t: string)
    requires HasPrefix(t, PackageHeader) && !IsSpace(t[|t| - 1])
    ensures |Fields(t)| >= 2 && Fields(t)[0] == "package"
  {
    var tail := t[|PackageHeader| - 1..];
    HeaderSplit(t);
    assert NoSpace("package");
    FieldsHead("package", tail);
    NotAllSpace(tail);
    FieldsEmpty(tail);
  }

  /** Text starting with `package ` is the word `package` followed by the rest from its space on. */
  lemma HeaderSplit(t: string)
    requires HasPrefix(t, PackageHeader)
    ensures var tail := t[|PackageHeader| - 1..];
      t == "package" + tail && tail != [] && IsSpace(tail[0])
  {
    assert t[..|PackageHeader|] == PackageHeader;
    assert t[..|PackageHeader| - 1] == "package";
    assert t[|PackageHeader| - 1] == ' ';
    assert t == t[..|PackageHeader| - 1] + t[|PackageHeader| - 1..];
  }

  /** Text ending in a non-space character is not all white space. */
  lemma NotAllSpace(s: string)
    requires s != [] && !IsSpace(s[|s| - 1])
    ensures !AllSpace(s)
  {
  }

  /** A file whose first line is `package <name>` has that package, when the line fits in the buffer. */
  lemma PackageClause(name: string, rest: string)
    requires name != [] && NoSpace(name)
    requires |PackageHeader| + |name| < ReadLimit
    ensures PackageName(Some(PackageHeader + name + "\n" + rest)) == name
  {
    var first := PackageHeader + name;
    var head := Head(first + "\n" + rest);
    var after := head[|first| + 1..];
    assert head == first + ['\n'] + after by {
      assert head[..|first| + 1] == first + "\n";
    }
    assert '\n' !in first by {
      assert forall i :: 0 <= i < |first| ==> first[i] == ' ' || !IsSpace(first[i]);
    }
    SplitFirst(first, after, '\n');
    var lines := Split(head, '\n');
    assert lines[0] == first;
    PackageLineName(name);
    assert LineNames(lines)[0] == name;
  }

  /** The line `package <name>` declares `name`. */
  lemma PackageLineName(name: string)
    requires name != [] && NoSpace(name)
    ensures LineName(PackageHeader + name) == name
  {
    PackageLineTrimmed(name);
    PackageLineFields(name);
    PackageLinePrefix(name);
    LineNameOf(PackageHeader + name, name);
  }

  lemma PackageLinePrefix(name: string)
    ensures HasPrefix(PackageHeader + name, PackageHeader)
  {
    assert (PackageHeader + name)[..|PackageHeader|] == PackageHeader;
  }

  /** A trimmed `package` line of two fields declares its second field. */
  lemma LineNameOf(line: string, name: string)
    requires TrimSpace(line) == line && HasPrefix(line, PackageHeader)
    requires Fields(line) == ["package", name]
    ensures LineName(line) == name
  {
    assert IsPackageLine(line);
  }

  lemma PackageLineTrimmed(name: string)
    requires name != [] && NoSpace(name)
    ensures TrimSpace(PackageHeader + name) == PackageHeader + name
  {
    var first := PackageHeader + name;
    assert !IsSpace(first[|first| - 1]) by {
      assert first[|first| - 1] == name[|name| - 1];
    }
    TrimSpaceOfWord(first);
  }

  lemma PackageLineFields(name: string)
    requires name != [] && NoSpace(name)
    ensures Fields(PackageHeader + name) == ["package", name]
  {
    assert PackageHeader == "package" + " ";
    assert NoSpace("package") && AllSpace(" ");
    FieldsTwo("package", " ", name);
  }

  /** The first non-empty name is the one at the first index holding one. */
  lemma {:induction false} FirstNameAt(names: seq<string>, k: nat)
    requires k < |names| && names[k] != ""
    requires forall j :: 0 <= j < k ==> names[j] == ""
    ensures FirstName(names) == names[k]
  {
    if k > 0 {
      FirstNameAt(names[1..], k - 1);
    }
  }

  /** No name is found exactly when every name is empty. */
  lemma {:induction false} FirstNameNone(names: seq<string>)
    ensures FirstName(names) == "" <==> forall i :: 0 <= i < |names| ==> names[i] == ""
  {
    if names != [] {
      FirstNameNone(names[1..]);
      assert forall i :: 1 <= i < |names| ==> names[i] == names[1..][i - 1];
    }
  }

  /** The package is the one on the first package line. */
  lemma FirstPackageIsFirst(lines: seq<string>, k: nat)
    requires k < |lines| && IsPackageLine(lines[k])
    requires forall j :: 0 <= j < k ==> !IsPackageLine(lines[j])
    ensures FirstPackage(lines) == LineName(lines[k])
  {
    FirstNameAt(LineNames(lines), k);
  }

  /** No package is found exactly when no line is a package line. */
  lemma FirstPackageNone(lines: seq<string>)
    ensures FirstPackage(lines) == "" <==> forall i :: 0 <= i < |lines| ==> !IsPackageLine(lines[i])
  {
    FirstNameNone(LineNames(lines));
  }

  /** Text starting and ending with a non-space character is its own trimmed form. */
  lemma TrimSpaceOfWord(s: string)
    requires s != [] && !IsSpace(s[0]) && !IsSpace(s[|s| - 1])
    ensures TrimSpace(s) == s
  {
  }

  /** A `package` clause beyond the first 512 bytes is never seen. */
  lemma OnlyHeadRead(head: string, tail: string)
    requires |head| == ReadLimit
    ensures PackageName(Some(head + tail)) == PackageName(Some(head))
  {
    assert (head + tail)[..ReadLimit] == head;
  }

  /** Appending a child to a directory listing appends its test files. */
  lemma {:induction false} DiscoveredAllSnoc(children: seq<Entry>, c: Entry, path: string, rel: string)
    ensures DiscoveredAll(children + [c], path, rel)
         == DiscoveredAll(children, path, rel) + Discovered(c, FilePath.Join(path, c.name), RelJoin(rel, c.name))
    decreases |children|
  {
    if children == [] {
      assert [] + [c] == [c];
      assert [c][1..] == [];
    } else {
      assert (children + [c])[1..] == children[1..] + [c];
      DiscoveredAllSnoc(children[1..], c, path, rel);
    }
  }

  /** One more entry of a listing adds that entry's test files. */
  lemma DiscoveredAllPrefix(children: seq<Entry>, i: nat, path: string, rel: string)
    requires i < |children|
    ensures DiscoveredAll(children[..i + 1], path, rel)
         == DiscoveredAll(children[..i], path, rel)
          + Discovered(children[i], FilePath.Join(path, children[i].name), RelJoin(rel, children[i].name))
  {
    assert children[..i + 1] == children[..i] + [children[i]];
    DiscoveredAllSnoc(children[..i], children[i], path, rel);
  }

  /** Every reported path ends in `_test.go`. */
  predicate TestPaths(r: seq<TestFile>) {
    forall i :: 0 <= i < |r| ==> HasSuffix(r[i].path, TestSuffix)
  }

  lemma TestPathsAppend(a: seq<TestFile>, b: seq<TestFile>)
    requires TestPaths(a) && TestPaths(b)
    ensures TestPaths(a + b)
  {
    forall i | 0 <= i < |a + b| ensures HasSuffix((a + b)[i].path, TestSuffix) {
      if i >= |a| {
        assert (a + b)[i] == b[i - |a|];
      }
    }
  }

  /** Only `_test.go` files are reported from a directory. */
  lemma {:induction false} DiscoveredPaths(e: Entry, path: string, rel: string)
    requires e.Dir?
    ensures TestPaths(Discovered(e, path, rel))
    decreases e, 1
  {
    if !Skipped(e.name) {
      DiscoveredAllPaths(e.children, path, rel);
    }
  }

  lemma {:induction false} DiscoveredAllPaths(children: seq<Entry>, path: string, rel: string)
    ensures TestPaths(DiscoveredAll(children, path, rel))
    decreases children, 0
  {
    if children != [] {
      var c := children[0];
      var p := FilePath.Join(path, c.name);
      var here := Discovered(c, p, RelJoin(rel, c.name));
      if c.Dir? {
        DiscoveredPaths(c, p, RelJoin(rel, c.name));
      } else {
        FilePath.JoinSuffix(path, c.name, TestSuffix);
      }
      DiscoveredAllPaths(children[1..], path, rel);
      TestPathsAppend(here, DiscoveredAll(children[1..], path, rel));
    }
  }

  /** The number of files in a tree. */
  function FileCount(e: Entry): nat
    decreases e, 1
  {
    match e
    case File(_, _) => 1
    case Dir(_, children) => FileCountAll(children)
  }

  function FileCountAll(children: seq<Entry>): nat
    decreases children, 0
  {
    if children == [] then 0 else FileCount(children[0]) + FileCountAll(children[1..])
  }

  /** The walk reports at most as many test files as the tree holds files. */
  lemma {:induction false} DiscoveredBound(e: Entry, path: string, rel: string)
    ensures |Discovered(e, path, rel)| <= FileCount(e)
    decreases e, 1
  {
    match e
    case File(_, _) =>
    case Dir(name, children) =>
      if !Skipped(name) {
        DiscoveredAllBound(children, path, rel);
      }
  }

  lemma {:induction false} DiscoveredAllBound(children: seq<Entry>, path: string, rel: string)
    ensures |DiscoveredAll(children, path, rel)| <= FileCountAll(children)
    decreases children, 0
  {
    if children != [] {
      var c := children[0];
      DiscoveredBound(c, FilePath.Join(path, c.name), RelJoin(rel, c.name));
      DiscoveredAllBound(children[1..], path, rel);
    }
  }

  /** A skipped directory hides its whole subtree, whatever it holds; the root is no exception. */
  lemma SkippedSubtree(name: string, children1: seq<Entry>, children2: seq<Entry>, path: string, rel: string)
    requires Skipped(name)
    ensures Discovered(Dir(name, children1), path, rel) == Discovered(Dir(name, children2), path, rel) == []
  {
  }

  /** A test file directly under the root is reported with its name as relative path. */
  lemma TopLevelTestFile(root: string, rootDir: string, name: string, content: Option<string>)
    requires !Skipped(root) && IsTestFileName(name)
    ensures Discovered(Dir(root, [File(name, content)]), rootDir, ".")
         == [TestFile(FilePath.Join(rootDir, name), PackageName(content), name)]
  {
    var c := File(name, content);
    var cs := [c];
    assert cs[1..] == [];
    assert RelJoin(".", name) == name;
    assert Discovered(c, FilePath.Join(rootDir, name), name)
        == [TestFile(FilePath.Join(rootDir, name), PackageName(content), name)];
    assert DiscoveredAll(cs, rootDir, ".") == Discovered(c, FilePath.Join(rootDir, name), name) + DiscoveredAll([], rootDir, ".");
  }

  /** A test file in a top-level directory lands in that directory of the unified suite. */
  lemma DestinationKeepsLayout(baseDir: string, dir: string, name: string, t: TestFile)
    requires baseDir != "" && dir != "" && !Skipped(dir) && name != "" && '/' !in name
    requires t.relativePath == RelJoin(RelJoin(".", dir), name)
    ensures FilePath.Dir(Destination(baseDir, t)) == FilePath.Join(UnifiedDir(baseDir), dir)
    ensures FilePath.Base(Destination(baseDir, t)) == name
  {
    assert t.relativePath == dir + "/" + name;
    assert Destination(baseDir, t) == FilePath.Join(FilePath.Join(UnifiedDir(baseDir), dir), name);
    FilePath.DirJoin(FilePath.Join(UnifiedDir(baseDir), dir), name);
  }
}
