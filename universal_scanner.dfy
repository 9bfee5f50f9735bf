/**
 * The universal scanner: it collects the script files of the source directory (and the
 * project root's own `*.js` files), drops repeated file names, runs the pattern-table
 * parser over each file in turn, appends what each file gives, and finally drops routes
 * whose method, path and file repeat an earlier route's.
 * Globbing and `findSrcDir` are outside the model: their answers are parameters.
 */
module UniversalScanning {
  import opened Wrappers
  import opened Model
  import opened Dedup
  import opened RouteParsing
  import opened FrameworkDetection

  /** The de-duplication key `${method}:${path}:${file}`. */
  function MethodPathFileKey(r: Route): string {
    r.httpMethod + ":" + r.path + ":" + r.file
  }

  /** A file name is its own key in `new Set(allFiles)`. */
  function FileKey(f: string): string { f }

  /** The glob answers concatenated in pattern order. */
  function Concat(lists: seq<seq<string>>): (all: seq<string>)
    ensures forall f :: f in all <==> exists i :: 0 <= i < |lists| && f in lists[i]
    decreases |lists|
  {
    if lists == [] then []
    else
      Concat(lists[..|lists| - 1]) + lists[|lists| - 1]
  }

  /** The candidate files: one glob answer per pattern, then the root's `*.js` files when the
      source directory is not the project root (an unset root never equals it). */
  function CandidateFiles(srcDir: string, projectRoot: Option<string>,
                          globbed: seq<seq<string>>, rootFiles: seq<string>): seq<string>
  {
    Concat(globbed) + (if projectRoot != Some(srcDir) then rootFiles else [])
  }

  /** `[...new Set(allFiles)]`: the candidates, each once, in first-seen order. */
  function FileList(srcDir: string, projectRoot: Option<string>,
                    globbed: seq<seq<string>>, rootFiles: seq<string>): seq<string>
  {
    Unique(CandidateFiles(srcDir, projectRoot, globbed, rootFiles), FileKey, {})
  }

  /** What one file contributes: nothing under Next.js, otherwise the pattern-table routes
      of its text, and nothing when it cannot be read. */
  function FileRoutes(file: string, framework: string, fs: FileSystem): seq<Route> {
    if framework == "nextjs" then ParseNextJSRoutes(file)
    else if file in fs then TableRoutes(SupportedPatterns, fs[file], file)
    else []
  }

  /** The routes of the files appended file by file. */
  function FilesRoutes(files: seq<string>, framework: string, fs: FileSystem): seq<Route>
    decreases |files|
  {
    if files == [] then []
    else FilesRoutes(files[..|files| - 1], framework, fs) + FileRoutes(files[|files| - 1], framework, fs)
  }

  class SimpleScanner {
    var routes: seq<Route>
    var projectRoot: Option<string>
    const routeParser: RouteParser

    /** The parser holds the five-pattern table. */
    ghost predicate Valid() {
      routeParser.supportedPatterns == SupportedPatterns
    }

    constructor ()
      ensures Valid()
      ensures routes == [] && projectRoot == None
    {
      routes := [];
      projectRoot := None;
      routeParser := new RouteParser();
    }

    /** `scan`: records the project root, collects and parses the files of the source
        directory with the detected framework, and de-duplicates everything collected so
        far (routes of an earlier scan included). */
    method Scan(projectPath: string, srcDir: string, manifest: Manifest,
                globbed: seq<seq<string>>, rootFiles: seq<string>, fs: FileSystem)
      returns (result: seq<Route>)
      requires Valid()
      modifies this
      ensures projectRoot == Some(projectPath)
      ensures routes == Unique(old(routes) + FilesRoutes(FileList(srcDir, Some(projectPath), globbed, rootFiles),
                                                         Detect(manifest), fs), MethodPathFileKey, {})
      ensures result == routes
    {
      projectRoot := Some(projectPath);
      var framework := Detect(manifest);
      ScanRoutes(srcDir, framework, globbed, rootFiles, fs);
      routes := RemoveDuplicates(routes);
      result := routes;
    }

    /** `scanRoutes`: concatenates the glob answers, adds the root files, drops repeated
        file names, then appends each file's routes to `routes`. */
    method ScanRoutes(srcDir: string, framework: string, globbed: seq<seq<string>>,
                      rootFiles: seq<string>, fs: FileSystem)
      requires Valid()
      modifies this`routes
      ensures routes == old(routes) + FilesRoutes(FileList(srcDir, projectRoot, globbed, rootFiles), framework, fs)
    {
      var allFiles: seq<string> := [];
      for i := 0 to |globbed|
        invariant allFiles == Concat(globbed[..i])
      {
        allFiles := allFiles + globbed[i];
        assert globbed[..i + 1][..i] == globbed[..i];
      }
      assert globbed[..|globbed|] == globbed;
      if projectRoot != Some(srcDir) {
        allFiles := allFiles + rootFiles;
      } else {
        assert allFiles + [] == allFiles;
      }
      assert allFiles == CandidateFiles(srcDir, projectRoot, globbed, rootFiles);
      var files := Unique(allFiles, FileKey, {});
      for i := 0 to |files|
        invariant routes == old(routes) + FilesRoutes(files[..i], framework, fs)
      {
        var found: seq<Route>;
        if framework == "nextjs" {
          found := ParseNextJSRoutes(files[i]);
        } else {
          found := routeParser.ParseFile(files[i], framework, fs);
        }
        assert files[..i + 1][..i] == files[..i];
        AppendAfter(old(routes), FilesRoutes(files[..i], framework, fs), found, FilesRoutes(files[..i + 1], framework, fs));
        routes := routes + found;
      }
      assert files[..|files|] == files;
    }

    /** `removeDuplicates`: the `filter` with a `seen` set of `method:path:file` keys. */
    static method RemoveDuplicates(rs: seq<Route>) returns (unique: seq<Route>)
      ensures unique == Unique(rs, MethodPathFileKey, {})
    {
      var seen: set<string> := {};
      unique := [];
      var i := 0;
      while i < |rs|
        invariant 0 <= i <= |rs|
        invariant unique + Unique(rs[i..], MethodPathFileKey, seen) == Unique(rs, MethodPathFileKey, {})
      {
        var key := rs[i].httpMethod + ":" + rs[i].path + ":" + rs[i].file;
        assert rs[i..][1..] == rs[i + 1..];
        if key !in seen {
          seen := seen + {key};
          unique := unique + [rs[i]];
        }
        i := i + 1;
      }
    }
  }

  // ---------------------------------------------------------------------------------------
  // De-duplication of routes

  /** The output is an order-preserving subsequence of the input, no longer than it, with
      pairwise distinct keys; it keeps the first route of every key and has a route for
      every key of the input; de-duplicating it again changes nothing. */
  lemma RemoveDuplicatesProperties(rs: seq<Route>)
    ensures var u := Unique(rs, MethodPathFileKey, {});
      IsSubsequence(u, rs) && |u| <= |rs| &&
      (forall i, j :: 0 <= i < j < |u| ==> MethodPathFileKey(u[i]) != MethodPathFileKey(u[j])) &&
      (forall i :: 0 <= i < |rs| && FirstOfKey(rs, MethodPathFileKey, {}, i) ==> rs[i] in u) &&
      (forall r :: r in rs ==> exists r' :: r' in u && MethodPathFileKey(r') == MethodPathFileKey(r)) &&
      (exists idx :: FirstSeen(u, rs, MethodPathFileKey, {}, idx)) &&
      Unique(u, MethodPathFileKey, {}) == u
  {
    UniqueIsSubsequence(rs, MethodPathFileKey, {});
    UniqueKeysDistinct(rs, MethodPathFileKey, {});
    UniqueKeepsFirst(rs, MethodPathFileKey, {});
    UniqueCoversKeys(rs, MethodPathFileKey, {});
    UniqueIdempotent(rs, MethodPathFileKey);
  }

  /** For one method and path, the key tells the files apart. */
  lemma KeySeparatesFiles(r1: Route, r2: Route)
    requires r1.httpMethod == r2.httpMethod && r1.path == r2.path
    ensures MethodPathFileKey(r1) == MethodPathFileKey(r2) <==> r1.file == r2.file
  {
    var prefix := r1.httpMethod + ":" + r1.path + ":";
    assert MethodPathFileKey(r1) == prefix + r1.file && MethodPathFileKey(r2) == prefix + r2.file;
    if MethodPathFileKey(r1) == MethodPathFileKey(r2) {
      assert r1.file == MethodPathFileKey(r1)[|prefix|..];
      assert r2.file == MethodPathFileKey(r2)[|prefix|..];
    }
  }

  /** The same endpoint declared in two files survives in both: the output holds a route
      for each of the two keys, and the two keys differ. */
  lemma SameEndpointTwoFiles(rs: seq<Route>, r1: Route, r2: Route)
    requires r1 in rs && r2 in rs
    requires r1.httpMethod == r2.httpMethod && r1.path == r2.path && r1.file != r2.file
    ensures var u := Unique(rs, MethodPathFileKey, {});
      exists u1, u2 :: u1 in u && u2 in u && u1 != u2 &&
        MethodPathFileKey(u1) == MethodPathFileKey(r1) && MethodPathFileKey(u2) == MethodPathFileKey(r2)
  {
    KeySeparatesFiles(r1, r2);
    UniqueCoversKeys(rs, MethodPathFileKey, {});
    var u := Unique(rs, MethodPathFileKey, {});
    var u1 :| u1 in u && MethodPathFileKey(u1) == MethodPathFileKey(r1);
    var u2 :| u2 in u && MethodPathFileKey(u2) == MethodPathFileKey(r2);
  }

  /** Two routes that differ only in their file are both kept, in their order. */
  lemma SameEndpointPairKept(r1: Route, r2: Route)
    requires r1.httpMethod == r2.httpMethod && r1.path == r2.path && r1.file != r2.file
    ensures Unique([r1, r2], MethodPathFileKey, {}) == [r1, r2]
  {
    KeySeparatesFiles(r1, r2);
    UniqueOfDistinct([r1, r2], MethodPathFileKey, {});
  }

  /** The key is a plain concatenation, so a `:` inside a path or a file name can make two
      different routes share a key; the later one is then dropped. */
  lemma KeyAmbiguous()
    ensures var r1 := Route("get", "/a", None, "/x:/y.js", None, None, Some("express"));
      var r2 := Route("get", "/a:/x", None, "/y.js", None, None, Some("express"));
      r1 != r2 && MethodPathFileKey(r1) == MethodPathFileKey(r2) &&
      Unique([r1, r2], MethodPathFileKey, {}) == [r1]
  {
    var r1 := Route("get", "/a", None, "/x:/y.js", None, None, Some("express"));
    var r2 := Route("get", "/a:/x", None, "/y.js", None, None, Some("express"));
    assert MethodPathFileKey(r1) == "get:/a:/x:/y.js";
    assert MethodPathFileKey(r2) == "get:/a:/x:/y.js";
    var seen: set<string> := {} + {MethodPathFileKey(r1)};
    assert [r1, r2][1..] == [r2] && [r2][1..] == [];
    assert Unique([r2], MethodPathFileKey, seen) == Unique([], MethodPathFileKey, seen) == [];
    assert Unique([r1, r2], MethodPathFileKey, {}) == [r1] + Unique([r2], MethodPathFileKey, seen);
    assert [r1] + [] == [r1];
  }

  // ---------------------------------------------------------------------------------------
  // The file list

  /** Every candidate is listed exactly once, in the order of its first appearance, and
      nothing else is listed. */
  lemma FileListProperties(srcDir: string, projectRoot: Option<string>,
                           globbed: seq<seq<string>>, rootFiles: seq<string>)
    ensures var all := CandidateFiles(srcDir, projectRoot, globbed, rootFiles);
      var files := FileList(srcDir, projectRoot, globbed, rootFiles);
      IsSubsequence(files, all) &&
      (forall i, j :: 0 <= i < j < |files| ==> files[i] != files[j]) &&
      (forall f :: f in files <==> f in all) &&
      (exists idx :: FirstSeen(files, all, FileKey, {}, idx))
  {
    var all := CandidateFiles(srcDir, projectRoot, globbed, rootFiles);
    var files := FileList(srcDir, projectRoot, globbed, rootFiles);
    UniqueIsSubsequence(all, FileKey, {});
    UniqueKeysDistinct(all, FileKey, {});
    UniqueCoversKeys(all, FileKey, {});
    UniqueKeepsFirst(all, FileKey, {});
    forall f | f in files ensures f in all {
      var i :| 0 <= i < |all| && all[i] == f && FirstOfKey(all, FileKey, {}, i);
    }
  }

  /** The root's `*.js` files are scanned exactly when the source directory is not the
      recorded project root. */
  lemma RootFilesWhenSrcDirDiffers(srcDir: string, projectRoot: Option<string>,
                                   globbed: seq<seq<string>>, rootFiles: seq<string>, f: string)
    requires f in rootFiles
    ensures projectRoot != Some(srcDir) ==> f in FileList(srcDir, projectRoot, globbed, rootFiles)
  {
    FileListProperties(srcDir, projectRoot, globbed, rootFiles);
  }

  // ---------------------------------------------------------------------------------------
  // Accumulation

  /** Routes are appended file by file: the routes of a split list are the routes of its
      parts, in order. */
  lemma {:induction false} FilesRoutesAppend(a: seq<string>, b: seq<string>, framework: string, fs: FileSystem)
    ensures FilesRoutes(a + b, framework, fs) == FilesRoutes(a, framework, fs) + FilesRoutes(b, framework, fs)
    decreases |b|
  {
    if b != [] {
      var b' := b[..|b| - 1];
      var last := b[|b| - 1];
      assert (a + b)[..|a + b| - 1] == a + b';
      assert (a + b)[|a + b| - 1] == last;
      assert FilesRoutes(a + b, framework, fs) == FilesRoutes(a + b', framework, fs) + FileRoutes(last, framework, fs);
      FilesRoutesAppend(a, b', framework, fs);
      assert FilesRoutes(b, framework, fs) == FilesRoutes(b', framework, fs) + FileRoutes(last, framework, fs);
      AppendAfter(FilesRoutes(a, framework, fs), FilesRoutes(b', framework, fs), FileRoutes(last, framework, fs),
                  FilesRoutes(b, framework, fs));
    } else {
      assert a + b == a;
      assert FilesRoutes(a, framework, fs) + [] == FilesRoutes(a, framework, fs);
    }
  }

  /** Under Next.js no file contributes a route. */
  lemma {:induction false} NextjsNoRoutes(files: seq<string>, fs: FileSystem)
    ensures FilesRoutes(files, "nextjs", fs) == []
    decreases |files|
  {
    if files != [] {
      NextjsNoRoutes(files[..|files| - 1], fs);
    }
  }

  /** A file that cannot be read contributes nothing, and the files after it still do. */
  lemma UnreadableFileSkipped(before: seq<string>, file: string, after: seq<string>, framework: string, fs: FileSystem)
    requires file !in fs
    ensures FilesRoutes(before + [file] + after, framework, fs) ==
            FilesRoutes(before, framework, fs) + FilesRoutes(after, framework, fs)
  {
    FilesRoutesAppend(before + [file], after, framework, fs);
    assert (before + [file])[..|before + [file]| - 1] == before;
  }

  /** Apart from Next.js, the framework argument does not change what a file gives. */
  lemma {:induction false} FrameworkIgnored(files: seq<string>, f1: string, f2: string, fs: FileSystem)
    requires f1 != "nextjs" && f2 != "nextjs"
    ensures FilesRoutes(files, f1, fs) == FilesRoutes(files, f2, fs)
    decreases |files|
  {
    if files != [] {
      FrameworkIgnored(files[..|files| - 1], f1, f2, fs);
    }
  }

  /** Every collected route comes from a listed, readable file and has the shape the
      pattern-table parser gives: a lower-case verb, a non-empty unquoted path, that file,
      and the framework sniffed from that file's text. */
  lemma {:induction false} FilesRoutesEmitted(files: seq<string>, framework: string, fs: FileSystem)
    ensures forall r :: r in FilesRoutes(files, framework, fs) ==>
              r.file in files && r.file in fs && EmittedRoute(r, fs[r.file], r.file)
    decreases |files|
  {
    if files != [] {
      var init := files[..|files| - 1];
      var last := files[|files| - 1];
      FilesRoutesEmitted(init, framework, fs);
      if framework != "nextjs" && last in fs {
        ParseRoutesEmitted(fs[last], last);
      }
      forall r | r in FilesRoutes(files, framework, fs)
        ensures r.file in files && r.file in fs && EmittedRoute(r, fs[r.file], r.file)
      {
        if r in FilesRoutes(init, framework, fs) {
          assert r.file in init;
        }
      }
    }
  }
}
