/**
 The signature collector of the documentation generator (`collectPgkFunc`).
 Source files are visited in the order the directory glob returned them; each
 file that survives the filters belongs to the package named by its first
 path segment.  The first file of a package not seen before closes the open
 code fence (with the previous package's end fragment), writes a heading,
 the package's start fragment and a fresh "```go" fence; every kept file
 then appends its exported signatures.  "Seen" is a set lookup, not a
 comparison with the previous file: a package that comes back after another
 one never opens a second section, its signatures land in the fence that is
 open at that moment.

 The output is modelled as a trace of chunks, rendered to text by `Render`;
 the fence and heading properties are stated on the trace, because a
 fragment or a signature may itself contain "```".
 */
module Collect {
  import opened Wrappers
  import opened Text
  import opened Seqs
  import opened Signatures
  import opened Fragments

  /** Package directories that are never documented. */
  const Hidden: seq<string> := ["netutil", "numutil", "internal"]

  /** Display-name overrides, looked up after a trailing "util" is removed. */
  const NameMap: map<string, string> := map[
    "arr" := "array/Slice", "str" := "string", "sys" := "system", "math" := "math/Number",
    "fs" := "fileSystem", "fmt" := "formatting", "test" := "testing", "dump" := "dump",
    "structs" := "struct", "json" := "JSON", "cli" := "CLI", "env" := "ENV", "std" := "standard"
  ]

  /** The options the collection reads: the language (-l) and the template directory (-t). */
  datatype Options = Options(lang: string, tplDir: string)

  /** One write into the output buffer. */
  datatype Chunk =
    | Heading(name: string, pkgPath: string)   // section title and package-path line
    | Doc(text: string)                        // a start or end fragment
    | OpenFence                                // "```go"
    | CloseFence                               // "```"
    | SourceAt(file: string)                   // "// source at <file>"
    | Sig(line: string)                        // one trimmed signature

  /** The ways a run aborts (a panic in the source). */
  datatype Fault =
    | NoSlash(path: string)       // a path without "/" reaches the package-name slice
    | Unreadable(path: string)    // a required file (a kept source file or the template) cannot be read

  /** The text one chunk writes; every write ends with a line break, as Fprintln does. */
  function RenderChunk(c: Chunk): (r: string)
    ensures |r| > 0 && r[|r| - 1] == '\n'
    ensures c.Heading? ==> HasPrefix(r, "\n### ")
  {
    match c
    case Heading(name, pkgPath) => "\n### " + UpperFirst(name) + "\n" + "\n> Package `" + pkgPath + "`\n\n"
    case Doc(text) => text + "\n"
    case OpenFence => "```go\n"
    case CloseFence => "```\n"
    case SourceAt(file) => "// source at " + file + "\n"
    case Sig(line) => line + "\n"
  }

  /** The buffer's contents after writing a trace of chunks. */
  function Render(trace: seq<Chunk>): (r: string)
    ensures |r| >= |trace|
    ensures |trace| > 0 ==> |r| > 0 && r[|r| - 1] == '\n'
  {
    if |trace| == 0 then "" else RenderChunk(trace[0]) + Render(trace[1..])
  }

  /** Writing two traces one after the other writes the two texts one after the other. */
  lemma {:induction false} RenderAppend(a: seq<Chunk>, b: seq<Chunk>)
    ensures Render(a + b) == Render(a) + Render(b)
    decreases |a|
  {
    if |a| == 0 {
      assert a + b == b;
    } else {
      ConsAppend(a, b);
      RenderAppend(a[1..], b);
      var first := RenderChunk(a[0]);
      assert Render(a + b) == first + Render(a[1..] + b);
      Assoc(first, Render(a[1..]), Render(b));
    }
  }

  /** Signature lines rendered and read back line by line give the signatures, then the empty rest after the last break. */
  lemma {:induction false} SigLinesRoundTrip(sigs: seq<string>)
    requires forall i :: 0 <= i < |sigs| ==> '\n' !in sigs[i]
    ensures Lines(Render(SigChunks(sigs))) == sigs + [""]
    decreases |sigs|
  {
    if |sigs| == 0 {
      LinesSingle("");
    } else {
      var rest := Render(SigChunks(sigs[1..]));
      assert SigChunks(sigs)[0] == Sig(sigs[0]) && SigChunks(sigs)[1..] == SigChunks(sigs[1..]);
      assert Render(SigChunks(sigs)) == sigs[0] + "\n" + rest;
      LinesCons(sigs[0], rest);
      SigLinesRoundTrip(sigs[1..]);
      ConsSplit(sigs);
      Assoc([sigs[0]], sigs[1..], [""]);
    }
  }

  /** The "// source at" line holds no line break when the path holds none. */
  lemma SourceLineNoBreak(path: string)
    requires '\n' !in path
    ensures '\n' !in "// source at " + path
  {
    var prefix := "// source at ";
    assert '\n' !in prefix;
    assert forall c :: c in prefix + path ==> c in prefix || c in path;
  }

  /**
   What one file writes, read back line by line: the "// source at" line,
   then exactly the file's signatures in order, then the empty rest after
   the final line break.
   */
  lemma FileChunksLines(path: string, text: string)
    requires '\n' !in path && FileSignatures(text) != []
    ensures Lines(Render(FileChunks(path, text))) == ["// source at " + path] + FileSignatures(text) + [""]
  {
    var sigs := FileSignatures(text);
    var src := "// source at " + path;
    SourceLineNoBreak(path);
    assert forall i :: 0 <= i < |sigs| ==> '\n' !in sigs[i] by {
      forall i | 0 <= i < |sigs| ensures '\n' !in sigs[i] {
        assert sigs[i] in sigs;
      }
    }
    SigLinesRoundTrip(sigs);
    var body := SigChunks(sigs);
    RenderAppend([SourceAt(path)], body);
    assert [SourceAt(path)][1..] == [];
    assert Render(FileChunks(path, text)) == src + "\n" + Render(body);
    LinesCons(src, Render(body));
    Assoc([src], sigs, [""]);
  }

  /** The fences read back as "```go" and "```", each followed by the empty rest, as main.go's Fprintln writes them. */
  lemma FenceLines()
    ensures Lines(RenderChunk(OpenFence)) == ["```go", ""]
    ensures Lines(RenderChunk(CloseFence)) == ["```", ""]
  {
    LinesSingle("");
    assert RenderChunk(OpenFence) == "```go" + "\n" + "";
    LinesCons("```go", "");
    assert RenderChunk(CloseFence) == "```" + "\n" + "";
    LinesCons("```", "");
  }

  /** A found fragment is written as its own lines followed by one line break: its lines, then the empty rest. */
  lemma DocLines(t: string)
    ensures Lines(RenderChunk(Doc(t))) == Lines(t) + [""]
  {
    LinesBreakEnd(t);
  }

  /** A heading's text, regrouped as its lines, each followed by a break. */
  lemma HeadingText(name: string, pkgPath: string)
    ensures var title, pkg := "### " + UpperFirst(name), "> Package `" + pkgPath + "`";
            RenderChunk(Heading(name, pkgPath)) == "" + "\n" + (title + "\n" + ("" + "\n" + (pkg + "\n" + ("" + "\n" + ""))))
  {
    assert "\n### " == "\n" + "### ";
    assert "\n> Package `" == "\n" + "> Package `";
    assert "`\n\n" == "`" + "\n" + "\n";
    HeadingRegroup("\n", "### ", UpperFirst(name), "> Package `", pkgPath, "`");
  }

  /** The regrouping behind `HeadingText`, over arbitrary pieces. */
  lemma HeadingRegroup<T>(n: seq<T>, h: seq<T>, u: seq<T>, k: seq<T>, p: seq<T>, q: seq<T>)
    ensures n + h + u + n + (n + k) + p + (q + n + n)
            == [] + n + ((h + u) + n + ([] + n + ((k + p + q) + n + ([] + n + []))))
  {
  }

  /**
   A heading reads back as six lines: an empty line, "### " and the title
   with its first letter upper-cased, an empty line, the package line, an
   empty line, and the empty rest.
   */
  lemma HeadingLines(name: string, pkgPath: string)
    requires '\n' !in name && '\n' !in pkgPath
    ensures Lines(RenderChunk(Heading(name, pkgPath)))
            == ["", "### " + UpperFirst(name), "", "> Package `" + pkgPath + "`", "", ""]
  {
    var title := "### " + UpperFirst(name);
    var pkg := "> Package `" + pkgPath + "`";
    UpperFirstNoBreak(name);
    NoBreakJoin("### ", UpperFirst(name));
    NoBreakJoin("> Package `", pkgPath);
    NoBreakJoin("> Package `" + pkgPath, "`");
    var t5 := "" + "\n" + "";
    var t4 := pkg + "\n" + t5;
    var t3 := "" + "\n" + t4;
    var t2 := title + "\n" + t3;
    var t1 := "" + "\n" + t2;
    HeadingText(name, pkgPath);
    LinesSingle("");
    LinesCons("", "");
    LinesCons(pkg, t5);
    LinesCons("", t4);
    LinesCons(title, t3);
    LinesCons("", t2);
    SixDisplay("", title, "", pkg, "", "");
  }

  // ---------------------------------------------------------------- filtering

  /** Test files and Windows-only files are skipped before anything else. */
  predicate SkippedBySuffix(path: string) {
    HasSuffix(path, "_test.go") || HasSuffix(path, "_windows.go")
  }

  /** The package directory: everything before the first "/", if there is one. */
  function PackageDir(path: string): (r: Option<string>)
    ensures r.None? <==> '/' !in path
    ensures r.Some? ==> |r.value| < |path| && path[|r.value|] == '/' && r.value == path[..|r.value|]
    ensures r.Some? ==> '/' !in r.value
  {
    match IndexRune(path, '/')
    case None => None
    case Some(i) => Some(path[..i])
  }

  /** A file that contributes to the output: not skipped by suffix, with a directory that is not hidden. */
  predicate Kept(path: string) {
    !SkippedBySuffix(path) && PackageDir(path).Some? && PackageDir(path).value !in Hidden
  }

  /** A file that is passed over without being read. */
  predicate Skipped(path: string) {
    SkippedBySuffix(path) || (PackageDir(path).Some? && PackageDir(path).value in Hidden)
  }

  /** The full package path that keys a section. */
  function PkgPath(basePkg: string, dir: string): string {
    basePkg + "/" + dir
  }

  /** Different package directories key different sections. */
  lemma PkgPathInjective(basePkg: string, a: string, b: string)
    ensures PkgPath(basePkg, a) == PkgPath(basePkg, b) ==> a == b
  {
    if PkgPath(basePkg, a) == PkgPath(basePkg, b) {
      assert a == PkgPath(basePkg, a)[|basePkg| + 1..];
      assert b == PkgPath(basePkg, b)[|basePkg| + 1..];
    }
  }

  /** The package paths of the kept files, in visiting order, repeats included. */
  function KeptPackages(basePkg: string, paths: seq<string>): seq<string> {
    if |paths| == 0 then []
    else
      var p := paths[|paths| - 1];
      KeptPackages(basePkg, paths[..|paths| - 1])
        + (if Kept(p) then [PkgPath(basePkg, PackageDir(p).value)] else [])
  }

  // ------------------------------------------------------------ display names

  /** The section title: the directory without a trailing "util", replaced by its override if it has one. */
  function DisplayName(dir: string): (name: string)
    ensures name in NameMap.Values || name == dir || name + "util" == dir
    ensures HasSuffix(dir, "util") && dir[..|dir| - 4] in NameMap ==> name == NameMap[dir[..|dir| - 4]]
    ensures !HasSuffix(dir, "util") && dir in NameMap ==> name == NameMap[dir]
    ensures HasSuffix(dir, "util") && dir[..|dir| - 4] !in NameMap ==> name + "util" == dir
    ensures !HasSuffix(dir, "util") && dir !in NameMap ==> name == dir
  {
    var base := if HasSuffix(dir, "util") then dir[..|dir| - 4] else dir;
    if base in NameMap then NameMap[base] else base
  }

  // ------------------------------------------------------------------ chunks

  /** A fragment, if one was found. */
  function DocChunks(d: Option<string>): (r: seq<Chunk>)
    ensures forall c :: c in r ==> c.Doc?
  {
    match d
    case None => []
    case Some(t) => [Doc(t)]
  }

  /** Chunks that may only appear inside an open fence. */
  predicate IsBody(c: Chunk) {
    c.SourceAt? || c.Sig?
  }

  function SigChunks(sigs: seq<string>): (r: seq<Chunk>)
    ensures |r| == |sigs|
    ensures forall i :: 0 <= i < |r| ==> r[i] == Sig(sigs[i])
  {
    if |sigs| == 0 then [] else [Sig(sigs[0])] + SigChunks(sigs[1..])
  }

  /** What one kept file writes: "// source at" and its signatures, or nothing when it has none. */
  function FileChunks(path: string, text: string): (r: seq<Chunk>)
    ensures forall c :: c in r ==> IsBody(c)
    ensures r == [] <==> FileSignatures(text) == []
    ensures r != [] ==> r[0] == SourceAt(path) && |r| == |FileSignatures(text)| + 1
    ensures r != [] ==> r[1..] == SigChunks(FileSignatures(text))
  {
    var sigs := FileSignatures(text);
    if |sigs| == 0 then []
    else
      var r := [SourceAt(path)] + SigChunks(sigs);
      assert r[1..] == SigChunks(sigs);
      r
  }

  // ------------------------------------------------------------ the collector

  /**
   The loop state: the package paths already given a section (the keys of
   `pkgFuncs`), the raw directory of the section opened last (`dirname`),
   and the buffer.
   */
  datatype Collector = Collector(seen: set<string>, dirname: string, out: seq<Chunk>)

  const Initial := Collector({}, "", [])

  /** The end of a section: "```" and the end fragment named by the section's raw directory. */
  function EndChunks(opts: Options, fs: FileSystem, dir: string): seq<Chunk> {
    [CloseFence] + DocChunks(LoadPart(fs, opts.tplDir, opts.lang, EndPart, dir))
  }

  /**
   The end of the open section, if any: nothing before the first section;
   otherwise one "```" followed by the end fragment of the raw directory of
   the section opened last (not its display name).
   */
  function CloseSection(opts: Options, fs: FileSystem, st: Collector): (r: seq<Chunk>)
    ensures r == [] <==> st.seen == {}
    ensures r != [] ==> r[0] == CloseFence && r[1..] == DocChunks(LoadPart(fs, opts.tplDir, opts.lang, EndPart, st.dirname))
  {
    if st.seen != {} then EndChunks(opts, fs, st.dirname) else []
  }

  /**
   The start of a section: its heading, then the start fragment named by the
   display name (not the raw directory), then a fresh "```go" fence.
   */
  function SectionHead(opts: Options, fs: FileSystem, name: string, pkgPath: string): (r: seq<Chunk>)
    ensures |r| >= 2 && r[0] == Heading(name, pkgPath) && r[|r| - 1] == OpenFence
    ensures r[1..|r| - 1] == DocChunks(LoadPart(fs, opts.tplDir, opts.lang, StartPart, name))
  {
    [Heading(name, pkgPath)] + DocChunks(LoadPart(fs, opts.tplDir, opts.lang, StartPart, name)) + [OpenFence]
  }

  /** The first file of a new package: close the previous section and open this one. */
  function OpenSection(opts: Options, basePkg: string, fs: FileSystem, st: Collector, dir: string): Collector {
    var pkgPath := PkgPath(basePkg, dir);
    Collector(
      st.seen + {pkgPath},
      dir,
      st.out + (CloseSection(opts, fs, st) + SectionHead(opts, fs, DisplayName(dir), pkgPath)))
  }

  /**
   A kept file of package directory `dir`: the first file of a package not
   seen yet opens its section; then the file is read (aborting when it
   cannot be) and its lines are appended.  A file of a package already seen
   appends only its own lines.
   */
  function Visit(opts: Options, basePkg: string, fs: FileSystem, st: Collector, path: string, dir: string): (r: Result<Collector, Fault>)
    ensures r.Failure? <==> path !in fs
    ensures r.Failure? ==> r.error == Unreadable(path)
    ensures r.Success? ==> r.value.seen == st.seen + {PkgPath(basePkg, dir)}
    ensures path in fs && PkgPath(basePkg, dir) in st.seen ==> r == Success(st.(out := st.out + FileChunks(path, fs[path])))
  {
    var key := PkgPath(basePkg, dir);
    if path !in fs then Failure(Unreadable(path))
    else if key in st.seen then
      assert st.seen + {key} == st.seen;
      Success(st.(out := st.out + FileChunks(path, fs[path])))
    else
      var st1 := OpenSection(opts, basePkg, fs, st, dir);
      Success(st1.(out := st1.out + FileChunks(path, fs[path])))
  }

  /** A path the loop aborts on: it passes the suffix filters, and has no "/" or is kept but cannot be read. */
  predicate Faulty(fs: FileSystem, path: string) {
    !SkippedBySuffix(path) && (PackageDir(path).None? || (Kept(path) && path !in fs))
  }

  /** The fault such a path raises: the package-name slice panics first, the read later. */
  function FaultAt(path: string): Fault {
    if PackageDir(path).None? then NoSlash(path) else Unreadable(path)
  }

  /**
   One iteration of the loop over the glob result.  It aborts exactly on a
   path that passes the suffix filters but has no "/", or on a kept file that
   cannot be read, and the fault names that path.  A file that is not kept
   leaves the state alone.
   */
  function Step(opts: Options, basePkg: string, fs: FileSystem, st: Collector, path: string): (r: Result<Collector, Fault>)
    ensures r.Failure? <==> !SkippedBySuffix(path) && (PackageDir(path).None? || (Kept(path) && path !in fs))
    ensures r.Failure? ==> r.error.path == path && r.error == FaultAt(path)
    ensures r.Success? && !Kept(path) ==> r.value == st
    ensures Kept(path) ==> r == Visit(opts, basePkg, fs, st, path, PackageDir(path).value)
  {
    if SkippedBySuffix(path) then Success(st)
    else match PackageDir(path)
      case None => Failure(NoSlash(path))
      case Some(dir) =>
        if dir in Hidden then Success(st) else Visit(opts, basePkg, fs, st, path, dir)
  }

  /** The loop: the files in order, stopping at the first fault. */
  function Run(opts: Options, basePkg: string, fs: FileSystem, st: Collector, paths: seq<string>): Result<Collector, Fault>
    decreases |paths|
  {
    if |paths| == 0 then Success(st)
    else match Step(opts, basePkg, fs, st, paths[0])
      case Failure(e) => Failure(e)
      case Success(st1) => Run(opts, basePkg, fs, st1, paths[1..])
  }

  /**
   What the loop meets: a fault names a listed file that passed the suffix
   filters; a run that completes had a "/" in every such file and could read
   every kept one.
   */
  lemma {:induction false} RunOutcome(opts: Options, basePkg: string, fs: FileSystem, st: Collector, paths: seq<string>)
    ensures var r := Run(opts, basePkg, fs, st, paths);
            && (r.Failure? ==> r.error.path in paths && !SkippedBySuffix(r.error.path))
            && (r.Success? ==> forall i :: 0 <= i < |paths| && !SkippedBySuffix(paths[i]) ==>
                                 PackageDir(paths[i]).Some? && (Kept(paths[i]) ==> paths[i] in fs))
    decreases |paths|
  {
    if |paths| > 0 {
      match Step(opts, basePkg, fs, st, paths[0])
      case Failure(_) =>
      case Success(st1) =>
        RunOutcome(opts, basePkg, fs, st1, paths[1..]);
        assert forall i :: 1 <= i < |paths| ==> paths[i] == paths[1..][i - 1];
    }
  }

  /**
   The loop aborts iff some listed path is faulty, and then on the first one,
   with that path's fault: well-formed input always completes.
   */
  lemma {:induction false} RunFirstFault(opts: Options, basePkg: string, fs: FileSystem, st: Collector, paths: seq<string>)
    ensures var r := Run(opts, basePkg, fs, st, paths);
            && (r.Failure? <==> exists i :: 0 <= i < |paths| && Faulty(fs, paths[i]))
            && (r.Failure? ==> exists k :: && 0 <= k < |paths| && Faulty(fs, paths[k]) && r.error == FaultAt(paths[k])
                                           && forall i :: 0 <= i < k ==> !Faulty(fs, paths[i]))
    decreases |paths|
  {
    if |paths| > 0 {
      match Step(opts, basePkg, fs, st, paths[0])
      case Failure(_) =>
        assert Faulty(fs, paths[0]);
      case Success(st1) =>
        assert !Faulty(fs, paths[0]);
        RunFirstFault(opts, basePkg, fs, st1, paths[1..]);
        var r := Run(opts, basePkg, fs, st1, paths[1..]);
        assert forall i :: 1 <= i < |paths| ==> paths[i] == paths[1..][i - 1];
        if r.Failure? {
          var k :| && 0 <= k < |paths[1..]| && Faulty(fs, paths[1..][k]) && r.error == FaultAt(paths[1..][k])
                   && forall i :: 0 <= i < k ==> !Faulty(fs, paths[1..][i]);
          assert paths[k + 1] == paths[1..][k];
        } else {
          forall i | 0 <= i < |paths| ensures !Faulty(fs, paths[i]) {
            if i > 0 {
              assert paths[i] == paths[1..][i - 1];
            }
          }
        }
    }
  }

  /**
   The collected trace: the loop, then the final close when any section was
   opened.  A fault names a listed, not suffix-skipped file; success means
   every such file has a package directory and every kept one was readable.
   */
  function CollectTrace(opts: Options, basePkg: string, fs: FileSystem, paths: seq<string>): (r: Result<seq<Chunk>, Fault>)
    ensures r.Failure? ==> r.error.path in paths && !SkippedBySuffix(r.error.path)
    ensures r.Success? ==> forall i :: 0 <= i < |paths| && !SkippedBySuffix(paths[i]) ==>
                             PackageDir(paths[i]).Some? && (Kept(paths[i]) ==> paths[i] in fs)
    ensures r.Failure? <==> exists i :: 0 <= i < |paths| && Faulty(fs, paths[i])
    ensures r.Failure? ==> exists k :: && 0 <= k < |paths| && Faulty(fs, paths[k]) && r.error == FaultAt(paths[k])
                                       && forall i :: 0 <= i < k ==> !Faulty(fs, paths[i])
  {
    RunOutcome(opts, basePkg, fs, Initial, paths);
    RunFirstFault(opts, basePkg, fs, Initial, paths);
    match Run(opts, basePkg, fs, Initial, paths)
    case Failure(e) => Failure(e)
    case Success(st) => Success(st.out + CloseSection(opts, fs, st))
  }

  /** `collectPgkFunc`: the generated text, or the fault that aborted the run. */
  function CollectPkgFunc(opts: Options, basePkg: string, fs: FileSystem, paths: seq<string>): (r: Result<string, Fault>)
    ensures r.Success? <==> CollectTrace(opts, basePkg, fs, paths).Success?
    ensures r.Success? ==> r.value == Render(CollectTrace(opts, basePkg, fs, paths).value)
    ensures r.Failure? ==> r.error == CollectTrace(opts, basePkg, fs, paths).error
    ensures r.Success? && KeptPackages(basePkg, paths) == [] ==> r.value == ""
  {
    match CollectTrace(opts, basePkg, fs, paths)
    case Failure(e) => Failure(e)
    case Success(trace) =>
      CollectShape(opts, basePkg, fs, paths);
      Success(Render(trace))
  }

  // ------------------------------------------------------- trace observations

  /** The package paths of the headings, in output order. */
  function HeadingPaths(trace: seq<Chunk>): seq<string> {
    if |trace| == 0 then []
    else (if trace[0].Heading? then [trace[0].pkgPath] else []) + HeadingPaths(trace[1..])
  }

  /**
   Reads a trace with a fence tracker that starts outside (`inside` false)
   or inside a fence: "```go" only outside, "```" only inside, headings and
   fragments only outside, source lines and signatures only inside.  The
   result is where the tracker ends, or None at the first misplaced chunk.
   */
  function Scan(trace: seq<Chunk>, inside: bool): Option<bool> {
    if |trace| == 0 then Some(inside)
    else match trace[0]
      case OpenFence => if inside then None else Scan(trace[1..], true)
      case CloseFence => if inside then Scan(trace[1..], false) else None
      case Heading(_, _) => if inside then None else Scan(trace[1..], inside)
      case Doc(_) => if inside then None else Scan(trace[1..], inside)
      case SourceAt(_) => if inside then Scan(trace[1..], inside) else None
      case Sig(_) => if inside then Scan(trace[1..], inside) else None
  }

  /** Every fence opened is closed, fences never nest, and every signature sits inside one. */
  predicate WellFenced(trace: seq<Chunk>) {
    Scan(trace, false) == Some(false)
  }

  lemma {:induction false} HeadingPathsAppend(a: seq<Chunk>, b: seq<Chunk>)
    ensures HeadingPaths(a + b) == HeadingPaths(a) + HeadingPaths(b)
    decreases |a|
  {
    if |a| > 0 {
      assert (a + b)[1..] == a[1..] + b;
      HeadingPathsAppend(a[1..], b);
    } else {
      assert a + b == b;
    }
  }

  lemma {:induction false} ScanAppend(a: seq<Chunk>, b: seq<Chunk>, inside: bool)
    ensures Scan(a + b, inside) == (match Scan(a, inside) case None => None case Some(q) => Scan(b, q))
    decreases |a|
  {
    if |a| > 0 {
      assert (a + b)[1..] == a[1..] + b;
      assert (a + b)[0] == a[0];
      match a[0]
      case OpenFence => ScanAppend(a[1..], b, true);
      case CloseFence => ScanAppend(a[1..], b, false);
      case _ => ScanAppend(a[1..], b, inside);
    } else {
      assert a + b == b;
    }
  }

  /** A tracker run that ends where it should has opened and closed fences in matching numbers. */
  lemma {:induction false} ScanCounts(trace: seq<Chunk>, inside: bool)
    requires Scan(trace, inside).Some?
    ensures multiset(trace)[OpenFence] + (if inside then 1 else 0)
            == multiset(trace)[CloseFence] + (if Scan(trace, inside).value then 1 else 0)
    decreases |trace|
  {
    if |trace| > 0 {
      assert trace == [trace[0]] + trace[1..];
      assert multiset(trace) == multiset{trace[0]} + multiset(trace[1..]);
      match trace[0]
      case OpenFence => ScanCounts(trace[1..], true);
      case CloseFence => ScanCounts(trace[1..], false);
      case _ => ScanCounts(trace[1..], inside);
    }
  }

  /** Body chunks keep the tracker inside and carry no heading. */
  lemma {:induction false} BodyChunks(t: seq<Chunk>)
    requires forall c :: c in t ==> IsBody(c)
    ensures Scan(t, true) == Some(true)
    ensures HeadingPaths(t) == []
    ensures multiset(t)[OpenFence] == 0
    decreases |t|
  {
    if |t| > 0 {
      assert t[0] in t;
      assert forall c :: c in t[1..] ==> c in t;
      BodyChunks(t[1..]);
      assert t == [t[0]] + t[1..];
    }
  }

  /** Fragment chunks keep the tracker outside and carry no heading. */
  lemma DocChunksFacts(d: Option<string>)
    ensures Scan(DocChunks(d), false) == Some(false)
    ensures HeadingPaths(DocChunks(d)) == []
    ensures multiset(DocChunks(d))[OpenFence] == 0
  {
  }

  // ---------------------------------------------------------- the invariant

  /**
   What the loop keeps true after visiting `done`: `seen` holds exactly the
   kept packages; the headings name them in first-occurrence order, one
   fence opened per heading; the trace is well placed and a fence is open
   exactly when some package was seen; and `dirname` is the raw directory of
   the section opened last, the one whose end fragment comes next.
   */
  ghost predicate Inv(basePkg: string, st: Collector, done: seq<string>) {
    var keys := KeptPackages(basePkg, done);
    var firsts := Firsts(keys);
    && st.seen == Elems(keys)
    && HeadingPaths(st.out) == firsts
    && multiset(st.out)[OpenFence] == |firsts|
    && Scan(st.out, false) == Some(st.seen != {})
    && (st.seen == {} ==> st.out == [])
    && (st.seen != {} ==> firsts[|firsts| - 1] == PkgPath(basePkg, st.dirname))
  }

  lemma KeptPackagesSnoc(basePkg: string, done: seq<string>, p: string)
    ensures KeptPackages(basePkg, done + [p])
            == KeptPackages(basePkg, done) + (if Kept(p) then [PkgPath(basePkg, PackageDir(p).value)] else [])
  {
    assert (done + [p])[..|done|] == done;
  }

  /** A step on a package already seen: the file's lines join the open fence. */
  lemma StepSeen(opts: Options, basePkg: string, fs: FileSystem, st: Collector, done: seq<string>, p: string)
    requires Inv(basePkg, st, done)
    requires Kept(p) && PkgPath(basePkg, PackageDir(p).value) in st.seen && p in fs
    ensures Inv(basePkg, st.(out := st.out + FileChunks(p, fs[p])), done + [p])
  {
    var key := PkgPath(basePkg, PackageDir(p).value);
    var keys := KeptPackages(basePkg, done);
    var body := FileChunks(p, fs[p]);
    KeptPackagesSnoc(basePkg, done, p);
    FirstsSnoc(keys, key);
    assert Elems(keys + [key]) == Elems(keys);
    BodyChunks(body);
    HeadingPathsAppend(st.out, body);
    ScanAppend(st.out, body, false);
  }

  /** Closing a section returns the tracker to "outside" and names no package. */
  lemma ClosingFacts(opts: Options, fs: FileSystem, st: Collector)
    ensures Scan(CloseSection(opts, fs, st), st.seen != {}) == Some(false)
    ensures HeadingPaths(CloseSection(opts, fs, st)) == []
    ensures multiset(CloseSection(opts, fs, st))[OpenFence] == 0
  {
    var endDoc := LoadPart(fs, opts.tplDir, opts.lang, EndPart, st.dirname);
    DocChunksFacts(endDoc);
    if st.seen != {} {
      ScanAppend([CloseFence], DocChunks(endDoc), true);
      HeadingPathsAppend([CloseFence], DocChunks(endDoc));
    }
  }

  /** Opening a section names its package once and leaves exactly one fence open around the file's lines. */
  lemma OpeningFacts(opts: Options, fs: FileSystem, name: string, key: string, body: seq<Chunk>)
    requires forall c :: c in body ==> IsBody(c)
    ensures var t := SectionHead(opts, fs, name, key) + body;
            Scan(t, false) == Some(true) && HeadingPaths(t) == [key] && multiset(t)[OpenFence] == 1
  {
    var startDoc := DocChunks(LoadPart(fs, opts.tplDir, opts.lang, StartPart, name));
    DocChunksFacts(LoadPart(fs, opts.tplDir, opts.lang, StartPart, name));
    BodyChunks(body);
    var h := [Heading(name, key)];
    ScanAppend(h, startDoc, false);
    ScanAppend(h + startDoc, [OpenFence], false);
    ScanAppend(h + startDoc + [OpenFence], body, false);
    HeadingPathsAppend(h, startDoc);
    HeadingPathsAppend(h + startDoc, [OpenFence]);
    HeadingPathsAppend(h + startDoc + [OpenFence], body);
  }

  /** Appending a closed-then-opened section to a well-placed trace: one more heading, one more fence, still open. */
  lemma AppendSection(out: seq<Chunk>, closing: seq<Chunk>, opening: seq<Chunk>, wasOpen: bool, key: string)
    requires Scan(out, false) == Some(wasOpen)
    requires Scan(closing, wasOpen) == Some(false) && HeadingPaths(closing) == [] && multiset(closing)[OpenFence] == 0
    requires Scan(opening, false) == Some(true) && HeadingPaths(opening) == [key] && multiset(opening)[OpenFence] == 1
    ensures var o := out + (closing + opening);
            && Scan(o, false) == Some(true)
            && HeadingPaths(o) == HeadingPaths(out) + [key]
            && multiset(o)[OpenFence] == multiset(out)[OpenFence] + 1
  {
    AppendScan(out, closing, opening, wasOpen);
    AppendHeadings(out, closing, opening, key);
    FenceCount(out, closing, opening);
  }

  lemma AppendScan(out: seq<Chunk>, closing: seq<Chunk>, opening: seq<Chunk>, wasOpen: bool)
    requires Scan(out, false) == Some(wasOpen)
    requires Scan(closing, wasOpen) == Some(false) && Scan(opening, false) == Some(true)
    ensures Scan(out + (closing + opening), false) == Some(true)
  {
    ScanAppend(closing, opening, wasOpen);
    ScanAppend(out, closing + opening, false);
  }

  lemma AppendHeadings(out: seq<Chunk>, closing: seq<Chunk>, opening: seq<Chunk>, key: string)
    requires HeadingPaths(closing) == [] && HeadingPaths(opening) == [key]
    ensures HeadingPaths(out + (closing + opening)) == HeadingPaths(out) + [key]
  {
    HeadingPathsAppend(closing, opening);
    HeadingPathsAppend(out, closing + opening);
    assert [] + [key] == [key];
  }

  lemma FenceCount(a: seq<Chunk>, b: seq<Chunk>, c: seq<Chunk>)
    ensures multiset(a + (b + c))[OpenFence] == multiset(a)[OpenFence] + multiset(b)[OpenFence] + multiset(c)[OpenFence]
  {
  }

  /** The invariant after a new package's section is appended, stated on the parts. */
  lemma InvAfterNew(basePkg: string, st: Collector, done: seq<string>, p: string, dir: string, out': seq<Chunk>)
    requires Inv(basePkg, st, done)
    requires PkgPath(basePkg, dir) !in st.seen
    requires KeptPackages(basePkg, done + [p]) == KeptPackages(basePkg, done) + [PkgPath(basePkg, dir)]
    requires Scan(out', false) == Some(true)
    requires HeadingPaths(out') == HeadingPaths(st.out) + [PkgPath(basePkg, dir)]
    requires multiset(out')[OpenFence] == multiset(st.out)[OpenFence] + 1
    ensures Inv(basePkg, Collector(st.seen + {PkgPath(basePkg, dir)}, dir, out'), done + [p])
  {
    var key := PkgPath(basePkg, dir);
    var keys := KeptPackages(basePkg, done);
    FirstsSnoc(keys, key);
    assert key !in Elems(keys);
    var firsts := Firsts(keys + [key]);
    assert firsts == Firsts(keys) + [key];
    assert firsts[|firsts| - 1] == key;
    ElemsSnoc(keys, key);
  }

  /** A step on a new package: the previous section closes and a new one opens. */
  lemma StepNew(opts: Options, basePkg: string, fs: FileSystem, st: Collector, done: seq<string>, p: string)
    requires Inv(basePkg, st, done)
    requires Kept(p) && PkgPath(basePkg, PackageDir(p).value) !in st.seen && p in fs
    ensures var st1 := OpenSection(opts, basePkg, fs, st, PackageDir(p).value);
            Inv(basePkg, st1.(out := st1.out + FileChunks(p, fs[p])), done + [p])
  {
    var dir := PackageDir(p).value;
    var key := PkgPath(basePkg, dir);
    var closing := CloseSection(opts, fs, st);
    var head := SectionHead(opts, fs, DisplayName(dir), key);
    var body := FileChunks(p, fs[p]);
    ConcatAssoc(st.out, closing, head, body);
    ClosingFacts(opts, fs, st);
    OpeningFacts(opts, fs, DisplayName(dir), key, body);
    AppendSection(st.out, closing, head + body, st.seen != {}, key);
    KeptPackagesSnoc(basePkg, done, p);
    InvAfterNew(basePkg, st, done, p, dir, st.out + (closing + head) + body);
  }

  /** Every successful step keeps the invariant. */
  lemma StepInv(opts: Options, basePkg: string, fs: FileSystem, st: Collector, done: seq<string>, p: string)
    requires Inv(basePkg, st, done)
    requires Step(opts, basePkg, fs, st, p).Success?
    ensures Inv(basePkg, Step(opts, basePkg, fs, st, p).value, done + [p])
  {
    KeptPackagesSnoc(basePkg, done, p);
    if !Kept(p) {
      assert KeptPackages(basePkg, done + [p]) == KeptPackages(basePkg, done);
    } else {
      var key := PkgPath(basePkg, PackageDir(p).value);
      if key in st.seen {
        StepSeen(opts, basePkg, fs, st, done, p);
      } else {
        StepNew(opts, basePkg, fs, st, done, p);
      }
    }
  }

  /** Every successful run keeps the invariant. */
  lemma {:induction false} RunInv(opts: Options, basePkg: string, fs: FileSystem, st: Collector, done: seq<string>, rest: seq<string>)
    requires Inv(basePkg, st, done)
    requires Run(opts, basePkg, fs, st, rest).Success?
    ensures Inv(basePkg, Run(opts, basePkg, fs, st, rest).value, done + rest)
    decreases |rest|
  {
    if |rest| == 0 {
      assert done + rest == done;
    } else {
      StepInv(opts, basePkg, fs, st, done, rest[0]);
      var st1 := Step(opts, basePkg, fs, st, rest[0]).value;
      RunInv(opts, basePkg, fs, st1, done + [rest[0]], rest[1..]);
      ShiftFirst(done, rest);
    }
  }

  /**
   The shape of every collected trace: fences balanced and never nested,
   every signature inside a fence; one heading per distinct kept package,
   in the order the packages first appear (so a package that reappears
   after another never gets a second heading); as many "```go" as "```" as
   distinct packages; and nothing at all when no file was kept.
   */
  lemma CollectShape(opts: Options, basePkg: string, fs: FileSystem, paths: seq<string>)
    requires CollectTrace(opts, basePkg, fs, paths).Success?
    ensures var trace := CollectTrace(opts, basePkg, fs, paths).value;
            && WellFenced(trace)
            && HeadingPaths(trace) == Firsts(KeptPackages(basePkg, paths))
            && Distinct(HeadingPaths(trace))
            && multiset(trace)[OpenFence] == multiset(trace)[CloseFence] == |Elems(KeptPackages(basePkg, paths))|
            && (trace == [] <==> KeptPackages(basePkg, paths) == [])
  {
    assert Inv(basePkg, Initial, []);
    RunInv(opts, basePkg, fs, Initial, [], paths);
    assert [] + paths == paths;
    var st := Run(opts, basePkg, fs, Initial, paths).value;
    FinalShape(opts, basePkg, fs, st, paths);
  }

  /** Closing the open section of a loop state that keeps the invariant gives a well-placed trace. */
  lemma FinalShape(opts: Options, basePkg: string, fs: FileSystem, st: Collector, done: seq<string>)
    requires Inv(basePkg, st, done)
    ensures var trace := st.out + CloseSection(opts, fs, st);
            && WellFenced(trace)
            && HeadingPaths(trace) == Firsts(KeptPackages(basePkg, done))
            && Distinct(HeadingPaths(trace))
            && multiset(trace)[OpenFence] == multiset(trace)[CloseFence] == |Elems(KeptPackages(basePkg, done))|
            && (trace == [] <==> KeptPackages(basePkg, done) == [])
  {
    var closing := CloseSection(opts, fs, st);
    var trace := st.out + closing;
    var keys := KeptPackages(basePkg, done);
    FirstsCard(keys);
    ClosingFacts(opts, fs, st);
    ElemsEmpty(keys);
    ScanAppend(st.out, closing, false);
    HeadingPathsAppend(st.out, closing);
    ScanCounts(trace, false);
  }

  // ------------------------------------------------------------ filtering

  /** Running over two stretches of files is running over the first, then the second. */
  lemma {:induction false} RunAppend(opts: Options, basePkg: string, fs: FileSystem, st: Collector, a: seq<string>, b: seq<string>)
    ensures Run(opts, basePkg, fs, st, a + b)
            == (match Run(opts, basePkg, fs, st, a)
                case Failure(e) => Failure(e)
                case Success(st1) => Run(opts, basePkg, fs, st1, b))
    decreases |a|
  {
    if |a| == 0 {
      assert a + b == b;
    } else {
      assert (a + b)[0] == a[0];
      assert (a + b)[1..] == a[1..] + b;
      match Step(opts, basePkg, fs, st, a[0])
      case Failure(_) =>
      case Success(st1) => RunAppend(opts, basePkg, fs, st1, a[1..], b);
    }
  }

  /** A skipped file is never read and leaves the loop state as it was. */
  lemma SkippedStep(opts: Options, basePkg: string, fs: FileSystem, st: Collector, p: string)
    requires Skipped(p)
    ensures Step(opts, basePkg, fs, st, p) == Success(st)
  {
  }

  /**
   A test file, a Windows-only file or a file of a hidden package contributes
   nothing at all: the output is the one obtained without it.
   */
  lemma DropSkipped(opts: Options, basePkg: string, fs: FileSystem, pre: seq<string>, p: string, post: seq<string>)
    requires Skipped(p)
    ensures CollectTrace(opts, basePkg, fs, pre + [p] + post) == CollectTrace(opts, basePkg, fs, pre + post)
  {
    assert pre + [p] + post == pre + ([p] + post);
    RunAppend(opts, basePkg, fs, Initial, pre, [p] + post);
    RunAppend(opts, basePkg, fs, Initial, pre, post);
    if Run(opts, basePkg, fs, Initial, pre).Success? {
      var st := Run(opts, basePkg, fs, Initial, pre).value;
      SkippedStep(opts, basePkg, fs, st, p);
      assert ([p] + post)[0] == p && ([p] + post)[1..] == post;
    }
  }

  /** A kept file is read: when it cannot be, the run aborts on it. */
  lemma KeptIsRead(opts: Options, basePkg: string, fs: FileSystem, pre: seq<string>, p: string, post: seq<string>)
    requires Run(opts, basePkg, fs, Initial, pre).Success?
    requires Kept(p) && p !in fs
    ensures CollectTrace(opts, basePkg, fs, pre + [p] + post) == Failure(Unreadable(p))
  {
    assert pre + [p] + post == pre + ([p] + post);
    RunAppend(opts, basePkg, fs, Initial, pre, [p] + post);
    assert ([p] + post)[0] == p;
  }

  /** A path that is not skipped by its suffix and has no "/" aborts the run when reached. */
  lemma NoSlashAborts(opts: Options, basePkg: string, fs: FileSystem, pre: seq<string>, p: string, post: seq<string>)
    requires Run(opts, basePkg, fs, Initial, pre).Success?
    requires !SkippedBySuffix(p) && '/' !in p
    ensures CollectTrace(opts, basePkg, fs, pre + [p] + post) == Failure(NoSlash(p))
  {
    assert pre + [p] + post == pre + ([p] + post);
    RunAppend(opts, basePkg, fs, Initial, pre, [p] + post);
    assert ([p] + post)[0] == p;
  }

  /**
   Kept packages A, B, A (A reappearing after B), whatever the files, give
   two headings, A then B, and two fences: no section is opened a second time.
   */
  lemma RevisitHeadings(opts: Options, basePkg: string, fs: FileSystem, paths: seq<string>, a: string, b: string)
    requires a != b
    requires KeptPackages(basePkg, paths) == [a, b, a]
    requires CollectTrace(opts, basePkg, fs, paths).Success?
    ensures HeadingPaths(CollectTrace(opts, basePkg, fs, paths).value) == [a, b]
    ensures multiset(CollectTrace(opts, basePkg, fs, paths).value)[OpenFence] == 2
  {
    CollectShape(opts, basePkg, fs, paths);
    FirstsReturn(a, b);
  }

  /** Suffix stripping, then the override table: the display names of three of the repository's packages. */
  lemma DisplayNameMapped()
    ensures DisplayName("arrutil") == "array/Slice"
    ensures DisplayName("strutil") == "string"
    ensures DisplayName("envutil") == "ENV"
  {
    assert HasSuffix("arrutil", "util") && "arrutil"[..3] == "arr";
    assert HasSuffix("strutil", "util") && "strutil"[..3] == "str";
    assert HasSuffix("envutil", "util") && "envutil"[..3] == "env";
  }

  /** A name without the suffix and without an override is kept; "util" alone becomes empty; only one suffix is removed. */
  lemma DisplayNameUnmapped()
    ensures DisplayName("timex") == "timex"
    ensures DisplayName("util") == ""
    ensures DisplayName("utilutil") == "util"
  {
    assert !HasSuffix("timex", "util");
    assert HasSuffix("util", "util") && "util"[..0] == "";
    assert HasSuffix("utilutil", "util") && "utilutil"[..4] == "util";
  }

  /** A package `xutil` and a package `x` get the same title. */
  lemma DisplayNameUtilSuffix(d: string)
    requires !HasSuffix(d, "util")
    ensures DisplayName(d + "util") == DisplayName(d)
  {
    var du := d + "util";
    assert du[|du| - 4..] == "util";
    assert du[..|du| - 4] == d;
  }
}
