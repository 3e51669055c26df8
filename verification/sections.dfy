/**
 The collected output as a reader sees it: a sequence of sections, each
 titled by one package directory and holding the lines of a run of kept
 files.  A section is its heading, the start fragment named by the display
 name, "```go", the "// source at" and signature lines of its files in
 visiting order, "```", and the end fragment named by the raw directory.

 The main results: every collected trace is such a layout, whose sections
 are the distinct kept packages in first-appearance order and whose files,
 read section after section, are exactly the kept files in visiting order;
 a section starts with a file of its own package and every later file in it
 belongs to a package that already has a section.  In particular the source
 lines and signatures of the whole output are those of the kept files, in
 order, each written into the fence that was open when the file was met.
 */
module Sections {
  import opened Wrappers
  import opened Seqs
  import opened Fragments
  import opened Collect

  /** One section: the package directory that titles it and the files whose lines it holds. */
  datatype Section = Section(dir: string, files: seq<string>)

  /** The text the loop reads for a file; only files present in the file system are ever read. */
  function Contents(fs: FileSystem, path: string): string {
    if path in fs then fs[path] else ""
  }

  /** The lines a run of files writes inside a fence, file after file. */
  function FilesChunks(fs: FileSystem, files: seq<string>): seq<Chunk> {
    if |files| == 0 then []
    else FilesChunks(fs, files[..|files| - 1]) + FileChunks(files[|files| - 1], Contents(fs, files[|files| - 1]))
  }

  /** The kept files, in visiting order. */
  function KeptFiles(paths: seq<string>): seq<string> {
    if |paths| == 0 then []
    else KeptFiles(paths[..|paths| - 1]) + (if Kept(paths[|paths| - 1]) then [paths[|paths| - 1]] else [])
  }

  /** A section while its fence is still open: heading, start fragment, "```go", and its files' lines. */
  function OpenChunks(opts: Options, fs: FileSystem, basePkg: string, s: Section): seq<Chunk> {
    SectionHead(opts, fs, DisplayName(s.dir), PkgPath(basePkg, s.dir)) + FilesChunks(fs, s.files)
  }

  /** A complete output: each section opened, filled, and closed with the end fragment of its own directory. */
  function Layout(opts: Options, fs: FileSystem, basePkg: string, secs: seq<Section>): seq<Chunk> {
    if |secs| == 0 then []
    else
      var s := secs[|secs| - 1];
      Layout(opts, fs, basePkg, secs[..|secs| - 1]) + OpenChunks(opts, fs, basePkg, s) + EndChunks(opts, fs, s.dir)
  }

  /** The package paths the sections are titled by, in output order. */
  function SectionKeys(basePkg: string, secs: seq<Section>): seq<string> {
    if |secs| == 0 then []
    else SectionKeys(basePkg, secs[..|secs| - 1]) + [PkgPath(basePkg, secs[|secs| - 1].dir)]
  }

  /** The files of all sections, section after section. */
  function SectionFiles(secs: seq<Section>): seq<string> {
    if |secs| == 0 then []
    else SectionFiles(secs[..|secs| - 1]) + secs[|secs| - 1].files
  }

  /** The package path a file of a package directory is listed under. */
  function FileKey(basePkg: string, f: string): string
    requires PackageDir(f).Some?
  {
    PkgPath(basePkg, PackageDir(f).value)
  }

  /**
   A section, given the package paths of the sections up to and including
   it: its first file is of its own directory, and every later file belongs
   to a package that already has a section.
   */
  predicate SectionOk(basePkg: string, keys: seq<string>, s: Section) {
    && |s.files| > 0
    && PackageDir(s.files[0]) == Some(s.dir)
    && forall j :: 0 < j < |s.files| ==> PackageDir(s.files[j]).Some? && FileKey(basePkg, s.files[j]) in keys
  }

  /** A section stays well formed when it takes one more file of a package that has a section. */
  lemma SectionOkSnoc(basePkg: string, keys: seq<string>, s: Section, p: string)
    requires SectionOk(basePkg, keys, s)
    requires PackageDir(p).Some? && FileKey(basePkg, p) in keys
    ensures SectionOk(basePkg, keys, Section(s.dir, s.files + [p]))
  {
    var files := s.files + [p];
    forall j | 0 < j < |files| ensures PackageDir(files[j]).Some? && FileKey(basePkg, files[j]) in keys {
      if j < |s.files| {
        assert files[j] == s.files[j];
      }
    }
  }

  /** Every section is well formed with respect to the sections before it. */
  predicate Grouped(basePkg: string, secs: seq<Section>) {
    |secs| == 0 ||
    (Grouped(basePkg, secs[..|secs| - 1]) && SectionOk(basePkg, SectionKeys(basePkg, secs), secs[|secs| - 1]))
  }

  // ------------------------------------------------------- one section more

  lemma FilesChunksSnoc(fs: FileSystem, files: seq<string>, f: string)
    ensures FilesChunks(fs, files + [f]) == FilesChunks(fs, files) + FileChunks(f, Contents(fs, f))
  {
    assert (files + [f])[..|files|] == files;
  }

  lemma KeptFilesSnoc(done: seq<string>, p: string)
    ensures KeptFiles(done + [p]) == KeptFiles(done) + (if Kept(p) then [p] else [])
  {
    assert (done + [p])[..|done|] == done;
  }

  /** Appending a section: one more title, its files after the others, and grouping checked on the new one. */
  lemma SectionListsSnoc(basePkg: string, secs: seq<Section>, s: Section)
    ensures SectionKeys(basePkg, secs + [s]) == SectionKeys(basePkg, secs) + [PkgPath(basePkg, s.dir)]
    ensures SectionFiles(secs + [s]) == SectionFiles(secs) + s.files
    ensures Grouped(basePkg, secs + [s])
            <==> Grouped(basePkg, secs) && SectionOk(basePkg, SectionKeys(basePkg, secs + [s]), s)
  {
    assert (secs + [s])[..|secs|] == secs;
    assert (secs + [s])[|secs|] == s;
  }

  /** Appending a section: the list facts above, and its text after the others. */
  lemma SectionsSnoc(opts: Options, fs: FileSystem, basePkg: string, secs: seq<Section>, s: Section)
    ensures SectionKeys(basePkg, secs + [s]) == SectionKeys(basePkg, secs) + [PkgPath(basePkg, s.dir)]
    ensures SectionFiles(secs + [s]) == SectionFiles(secs) + s.files
    ensures Layout(opts, fs, basePkg, secs + [s])
            == Layout(opts, fs, basePkg, secs) + OpenChunks(opts, fs, basePkg, s) + EndChunks(opts, fs, s.dir)
    ensures Grouped(basePkg, secs + [s])
            <==> Grouped(basePkg, secs) && SectionOk(basePkg, SectionKeys(basePkg, secs + [s]), s)
  {
    SectionListsSnoc(basePkg, secs, s);
    assert (secs + [s])[..|secs|] == secs;
    assert (secs + [s])[|secs|] == s;
  }

  /**
   The loop state after visiting `done`, read as sections: nothing before
   the first kept file; afterwards the sections `closed` are complete and
   `cur`, titled by `dirname`, is open.  The titles of `closed + [cur]` are
   the kept packages in first-appearance order, and their files are the kept
   files in visiting order.
   */
  ghost predicate SecInv(opts: Options, basePkg: string, fs: FileSystem, st: Collector, done: seq<string>,
                         closed: seq<Section>, cur: Section) {
    && st.seen == Elems(KeptPackages(basePkg, done))
    && (st.seen == {} ==> st.out == [] && closed == [] && KeptFiles(done) == [])
    && (st.seen != {} ==>
          && SectionKeys(basePkg, closed + [cur]) == Firsts(KeptPackages(basePkg, done))
          && SectionFiles(closed + [cur]) == KeptFiles(done)
          && Grouped(basePkg, closed + [cur])
          && cur.dir == st.dirname
          && st.out == Layout(opts, fs, basePkg, closed) + OpenChunks(opts, fs, basePkg, cur))
  }

  /** The open section grows by one file of a package that already has a section. */
  lemma ExtendOpen(basePkg: string, closed: seq<Section>, cur: Section, p: string)
    requires Grouped(basePkg, closed + [cur])
    requires PackageDir(p).Some? && FileKey(basePkg, p) in SectionKeys(basePkg, closed + [cur])
    ensures var cur' := Section(cur.dir, cur.files + [p]);
            && SectionKeys(basePkg, closed + [cur']) == SectionKeys(basePkg, closed + [cur])
            && SectionFiles(closed + [cur']) == SectionFiles(closed + [cur]) + [p]
            && Grouped(basePkg, closed + [cur'])
  {
    var cur' := Section(cur.dir, cur.files + [p]);
    var keys := SectionKeys(basePkg, closed + [cur]);
    SectionListsSnoc(basePkg, closed, cur);
    SectionListsSnoc(basePkg, closed, cur');
    Assoc(SectionFiles(closed), cur.files, [p]);
    SectionOkSnoc(basePkg, keys, cur, p);
  }

  /** A file of a package that already has a section extends the open section. */
  lemma StepSecSeen(opts: Options, basePkg: string, fs: FileSystem, st: Collector, done: seq<string>,
                    closed: seq<Section>, cur: Section, p: string)
    requires SecInv(opts, basePkg, fs, st, done, closed, cur)
    requires Kept(p) && PkgPath(basePkg, PackageDir(p).value) in st.seen && p in fs
    ensures SecInv(opts, basePkg, fs, st.(out := st.out + FileChunks(p, fs[p])), done + [p],
                   closed, Section(cur.dir, cur.files + [p]))
  {
    var key := PkgPath(basePkg, PackageDir(p).value);
    var cur' := Section(cur.dir, cur.files + [p]);
    var kp := KeptPackages(basePkg, done);
    KeptPackagesSnoc(basePkg, done, p);
    ElemsSnoc(kp, key);
    assert key in kp;
    FirstsSnoc(kp, key);
    KeptFilesSnoc(done, p);
    ExtendOpen(basePkg, closed, cur, p);
    var head := SectionHead(opts, fs, DisplayName(cur.dir), PkgPath(basePkg, cur.dir));
    FilesChunksSnoc(fs, cur.files, p);
    var fc := FileChunks(p, fs[p]);
    Assoc(head, FilesChunks(fs, cur.files), fc);
    Assoc(Layout(opts, fs, basePkg, closed), head + FilesChunks(fs, cur.files), fc);
  }

  /** A section holding one file of its own package: its text and its well-formedness. */
  lemma SingleSection(opts: Options, fs: FileSystem, basePkg: string, keys: seq<string>, dir: string, p: string)
    requires PackageDir(p) == Some(dir)
    ensures OpenChunks(opts, fs, basePkg, Section(dir, [p]))
            == SectionHead(opts, fs, DisplayName(dir), PkgPath(basePkg, dir)) + FileChunks(p, Contents(fs, p))
    ensures SectionOk(basePkg, keys, Section(dir, [p]))
  {
    var fc := FileChunks(p, Contents(fs, p));
    assert [p][..0] == [];
    assert FilesChunks(fs, [p]) == FilesChunks(fs, []) + fc;
    assert [] + fc == fc;
  }

  /** The text after a new section opens: the previous one is closed, then the new one is open with one file. */
  lemma OpenNewText(opts: Options, fs: FileSystem, basePkg: string, st: Collector, closed: seq<Section>, cur: Section,
                    dir: string, p: string)
    requires st.seen != {} && cur.dir == st.dirname
    requires st.out == Layout(opts, fs, basePkg, closed) + OpenChunks(opts, fs, basePkg, cur)
    requires PackageDir(p) == Some(dir) && p in fs
    ensures var st1 := OpenSection(opts, basePkg, fs, st, dir);
            st1.out + FileChunks(p, fs[p])
            == Layout(opts, fs, basePkg, closed + [cur]) + OpenChunks(opts, fs, basePkg, Section(dir, [p]))
  {
    var head := SectionHead(opts, fs, DisplayName(dir), PkgPath(basePkg, dir));
    var closing := EndChunks(opts, fs, cur.dir);
    SingleSection(opts, fs, basePkg, [], dir, p);
    SectionsSnoc(opts, fs, basePkg, closed, cur);
    Assoc(st.out, closing, head);
    Assoc(st.out + closing, head, FileChunks(p, Contents(fs, p)));
  }

  /** Before the first kept file nothing is listed; after it, its package and the file alone. */
  lemma FirstKept(basePkg: string, done: seq<string>, p: string)
    requires Elems(KeptPackages(basePkg, done)) == {} && KeptFiles(done) == [] && Kept(p)
    ensures var key := FileKey(basePkg, p);
            && Firsts(KeptPackages(basePkg, done + [p])) == [key]
            && Elems(KeptPackages(basePkg, done + [p])) == {key}
            && KeptFiles(done + [p]) == [p]
  {
    var kp := KeptPackages(basePkg, done);
    var key := FileKey(basePkg, p);
    ElemsEmpty(kp);
    KeptPackagesSnoc(basePkg, done, p);
    KeptFilesSnoc(done, p);
    assert kp + [key] == [key];
    assert [key][..0] == [];
    assert KeptFiles(done) + [p] == [p];
  }

  /** The first section: titled by its package, holding its one file. */
  lemma FirstSection(opts: Options, fs: FileSystem, basePkg: string, p: string)
    requires PackageDir(p).Some?
    ensures var sec := Section(PackageDir(p).value, [p]);
            && SectionKeys(basePkg, [] + [sec]) == [FileKey(basePkg, p)]
            && SectionFiles([] + [sec]) == [p]
            && Grouped(basePkg, [] + [sec])
  {
    var sec := Section(PackageDir(p).value, [p]);
    assert [] + [sec] == [sec];
    SingleSection(opts, fs, basePkg, [FileKey(basePkg, p)], sec.dir, p);
  }

  /** The text after the first kept file: its section is open with that one file. */
  lemma FirstText(opts: Options, basePkg: string, fs: FileSystem, st: Collector, p: string)
    requires st.seen == {} && st.out == [] && PackageDir(p).Some? && p in fs
    ensures var st1 := OpenSection(opts, basePkg, fs, st, PackageDir(p).value);
            && st1.seen == {FileKey(basePkg, p)}
            && st1.out + FileChunks(p, fs[p])
               == Layout(opts, fs, basePkg, []) + OpenChunks(opts, fs, basePkg, Section(PackageDir(p).value, [p]))
  {
    var dir := PackageDir(p).value;
    assert st.seen + {FileKey(basePkg, p)} == {FileKey(basePkg, p)};
    SingleSection(opts, fs, basePkg, [], dir, p);
    var head := SectionHead(opts, fs, DisplayName(dir), PkgPath(basePkg, dir));
    assert [] + ([] + head) == head;
  }

  /** The first kept file of all opens the first section. */
  lemma StepSecFirst(opts: Options, basePkg: string, fs: FileSystem, st: Collector, done: seq<string>,
                     closed: seq<Section>, cur: Section, p: string)
    requires SecInv(opts, basePkg, fs, st, done, closed, cur) && st.seen == {}
    requires Kept(p) && p in fs
    ensures var st1 := OpenSection(opts, basePkg, fs, st, PackageDir(p).value);
            SecInv(opts, basePkg, fs, st1.(out := st1.out + FileChunks(p, fs[p])), done + [p],
                   [], Section(PackageDir(p).value, [p]))
  {
    FirstKept(basePkg, done, p);
    FirstSection(opts, fs, basePkg, p);
    FirstText(opts, basePkg, fs, st, p);
  }

  /** The first file of a later new package closes the open section and opens one of its own. */
  lemma StepSecNew(opts: Options, basePkg: string, fs: FileSystem, st: Collector, done: seq<string>,
                   closed: seq<Section>, cur: Section, p: string)
    requires SecInv(opts, basePkg, fs, st, done, closed, cur) && st.seen != {}
    requires Kept(p) && PkgPath(basePkg, PackageDir(p).value) !in st.seen && p in fs
    ensures var st1 := OpenSection(opts, basePkg, fs, st, PackageDir(p).value);
            SecInv(opts, basePkg, fs, st1.(out := st1.out + FileChunks(p, fs[p])), done + [p],
                   closed + [cur], Section(PackageDir(p).value, [p]))
  {
    var dir := PackageDir(p).value;
    var key := PkgPath(basePkg, dir);
    var sec := Section(dir, [p]);
    var secs := closed + [cur];
    var kp := KeptPackages(basePkg, done);
    KeptPackagesSnoc(basePkg, done, p);
    ElemsSnoc(kp, key);
    FirstsSnoc(kp, key);
    KeptFilesSnoc(done, p);
    SectionsSnoc(opts, fs, basePkg, secs, sec);
    SingleSection(opts, fs, basePkg, SectionKeys(basePkg, secs + [sec]), dir, p);
    OpenNewText(opts, fs, basePkg, st, closed, cur, dir, p);
  }

  /** A file that is not kept adds neither a package nor a file. */
  lemma SkipKeepsLists(basePkg: string, done: seq<string>, p: string)
    requires !Kept(p)
    ensures KeptPackages(basePkg, done + [p]) == KeptPackages(basePkg, done)
    ensures KeptFiles(done + [p]) == KeptFiles(done)
  {
    KeptPackagesSnoc(basePkg, done, p);
    KeptFilesSnoc(done, p);
    assert KeptPackages(basePkg, done) + [] == KeptPackages(basePkg, done);
    assert KeptFiles(done) + [] == KeptFiles(done);
  }

  /** Every successful step keeps the section reading of the state. */
  lemma StepSec(opts: Options, basePkg: string, fs: FileSystem, st: Collector, done: seq<string>,
                closed: seq<Section>, cur: Section, p: string)
    returns (closed': seq<Section>, cur': Section)
    requires SecInv(opts, basePkg, fs, st, done, closed, cur)
    requires Step(opts, basePkg, fs, st, p).Success?
    ensures SecInv(opts, basePkg, fs, Step(opts, basePkg, fs, st, p).value, done + [p], closed', cur')
  {
    if !Kept(p) {
      SkipKeepsLists(basePkg, done, p);
      closed', cur' := closed, cur;
    } else {
      var dir := PackageDir(p).value;
      if PkgPath(basePkg, dir) in st.seen {
        StepSecSeen(opts, basePkg, fs, st, done, closed, cur, p);
        closed', cur' := closed, Section(cur.dir, cur.files + [p]);
      } else {
        var st1 := OpenSection(opts, basePkg, fs, st, dir);
        assert Step(opts, basePkg, fs, st, p) == Success(st1.(out := st1.out + FileChunks(p, fs[p])));
        if st.seen == {} {
          StepSecFirst(opts, basePkg, fs, st, done, closed, cur, p);
          closed', cur' := [], Section(dir, [p]);
        } else {
          StepSecNew(opts, basePkg, fs, st, done, closed, cur, p);
          closed', cur' := closed + [cur], Section(dir, [p]);
        }
      }
    }
  }

  /** Every successful run keeps the section reading of the state. */
  lemma {:induction false} RunSec(opts: Options, basePkg: string, fs: FileSystem, st: Collector, done: seq<string>,
                                  closed: seq<Section>, cur: Section, rest: seq<string>)
    returns (closed': seq<Section>, cur': Section)
    requires SecInv(opts, basePkg, fs, st, done, closed, cur)
    requires Run(opts, basePkg, fs, st, rest).Success?
    ensures SecInv(opts, basePkg, fs, Run(opts, basePkg, fs, st, rest).value, done + rest, closed', cur')
    decreases |rest|
  {
    if |rest| == 0 {
      assert done + rest == done;
      closed', cur' := closed, cur;
    } else {
      var st1 := Step(opts, basePkg, fs, st, rest[0]).value;
      var c1, s1 := StepSec(opts, basePkg, fs, st, done, closed, cur, rest[0]);
      closed', cur' := RunSec(opts, basePkg, fs, st1, done + [rest[0]], c1, s1, rest[1..]);
      ShiftFirst(done, rest);
    }
  }

  /** At the end of the loop, closing the open section completes the layout. */
  lemma Finish(opts: Options, basePkg: string, fs: FileSystem, st: Collector, done: seq<string>,
               closed: seq<Section>, cur: Section)
    returns (secs: seq<Section>)
    requires SecInv(opts, basePkg, fs, st, done, closed, cur)
    ensures st.seen != {} ==> secs == closed + [cur]
    ensures st.out + CloseSection(opts, fs, st) == Layout(opts, fs, basePkg, secs)
    ensures SectionKeys(basePkg, secs) == Firsts(KeptPackages(basePkg, done))
    ensures SectionFiles(secs) == KeptFiles(done)
    ensures Grouped(basePkg, secs)
  {
    if st.seen == {} {
      secs := [];
      ElemsEmpty(KeptPackages(basePkg, done));
    } else {
      secs := closed + [cur];
      SectionsSnoc(opts, fs, basePkg, closed, cur);
    }
  }

  /**
   Every collected trace is a layout of sections: one per distinct kept
   package, in first-appearance order; holding, section after section, all
   kept files in visiting order; each section starting with a file of its
   own package, every later file of it belonging to a package that already
   has a section.  Each heading is thus followed by the start fragment of its
   display name and "```go", and each "```" by the end fragment of the raw
   directory of the section it closes.
   */
  lemma CollectSections(opts: Options, basePkg: string, fs: FileSystem, paths: seq<string>)
    requires CollectTrace(opts, basePkg, fs, paths).Success?
    ensures exists secs ::
              && CollectTrace(opts, basePkg, fs, paths).value == Layout(opts, fs, basePkg, secs)
              && SectionKeys(basePkg, secs) == Firsts(KeptPackages(basePkg, paths))
              && SectionFiles(secs) == KeptFiles(paths)
              && Grouped(basePkg, secs)
  {
    var cur0 := Section("", []);
    assert SecInv(opts, basePkg, fs, Initial, [], [], cur0);
    var closed, cur := RunSec(opts, basePkg, fs, Initial, [], [], cur0, paths);
    assert [] + paths == paths;
    var st := Run(opts, basePkg, fs, Initial, paths).value;
    var secs := Finish(opts, basePkg, fs, st, paths, closed, cur);
    assert CollectTrace(opts, basePkg, fs, paths).value == st.out + CloseSection(opts, fs, st);
  }

  /** The text of a layout: the text of the sections before, then the new section's open part and its end. */
  lemma RenderLayoutSnoc(opts: Options, fs: FileSystem, basePkg: string, secs: seq<Section>, s: Section)
    ensures Render(Layout(opts, fs, basePkg, secs + [s]))
            == Render(Layout(opts, fs, basePkg, secs)) + Render(OpenChunks(opts, fs, basePkg, s)) + Render(EndChunks(opts, fs, s.dir))
  {
    SectionsSnoc(opts, fs, basePkg, secs, s);
    var before, open, end := Layout(opts, fs, basePkg, secs), OpenChunks(opts, fs, basePkg, s), EndChunks(opts, fs, s.dir);
    RenderAppend(before + open, end);
    RenderAppend(before, open);
  }

  /**
   `collectPgkFunc`'s text: the rendering of a layout whose sections are the
   distinct kept packages in first-appearance order, holding the kept files
   in visiting order.
   */
  lemma CollectText(opts: Options, basePkg: string, fs: FileSystem, paths: seq<string>)
    requires CollectPkgFunc(opts, basePkg, fs, paths).Success?
    ensures exists secs ::
              && CollectPkgFunc(opts, basePkg, fs, paths).value == Render(Layout(opts, fs, basePkg, secs))
              && SectionKeys(basePkg, secs) == Firsts(KeptPackages(basePkg, paths))
              && SectionFiles(secs) == KeptFiles(paths)
              && Grouped(basePkg, secs)
  {
    CollectSections(opts, basePkg, fs, paths);
    var secs :| && CollectTrace(opts, basePkg, fs, paths).value == Layout(opts, fs, basePkg, secs)
                && SectionKeys(basePkg, secs) == Firsts(KeptPackages(basePkg, paths))
                && SectionFiles(secs) == KeptFiles(paths)
                && Grouped(basePkg, secs);
    assert CollectPkgFunc(opts, basePkg, fs, paths).value == Render(Layout(opts, fs, basePkg, secs));
  }

  // ------------------------------------------------------------ the body lines

  /** The source-location and signature lines of a trace, in order. */
  function BodyOf(trace: seq<Chunk>): seq<Chunk> {
    if |trace| == 0 then []
    else (if IsBody(trace[0]) then [trace[0]] else []) + BodyOf(trace[1..])
  }

  lemma {:induction false} BodyOfAppend(a: seq<Chunk>, b: seq<Chunk>)
    ensures BodyOf(a + b) == BodyOf(a) + BodyOf(b)
    decreases |a|
  {
    if |a| == 0 {
      assert a + b == b;
    } else {
      ConsAppend(a, b);
      BodyOfAppend(a[1..], b);
      Assoc(if IsBody(a[0]) then [a[0]] else [], BodyOf(a[1..]), BodyOf(b));
    }
  }

  /** Fragment text is never body text. */
  lemma DocBody(d: Option<string>)
    ensures BodyOf(DocChunks(d)) == []
  {
    match d
    case None =>
    case Some(t) => assert [Doc(t)][1..] == [];
  }

  /** A section heading, its start fragment and "```go" hold no body line. */
  lemma HeadBody(opts: Options, fs: FileSystem, name: string, pkgPath: string)
    ensures BodyOf(SectionHead(opts, fs, name, pkgPath)) == []
  {
    var doc := DocChunks(LoadPart(fs, opts.tplDir, opts.lang, StartPart, name));
    DocBody(LoadPart(fs, opts.tplDir, opts.lang, StartPart, name));
    BodyOfAppend([Heading(name, pkgPath)], doc);
    BodyOfAppend([Heading(name, pkgPath)] + doc, [OpenFence]);
    assert [Heading(name, pkgPath)][1..] == [] && [OpenFence][1..] == [];
  }

  /** "```" and the end fragment hold no body line. */
  lemma EndBody(opts: Options, fs: FileSystem, dir: string)
    ensures BodyOf(EndChunks(opts, fs, dir)) == []
  {
    DocBody(LoadPart(fs, opts.tplDir, opts.lang, EndPart, dir));
    BodyOfAppend([CloseFence], DocChunks(LoadPart(fs, opts.tplDir, opts.lang, EndPart, dir)));
    assert [CloseFence][1..] == [];
  }

  lemma {:induction false} BodyOfAll(t: seq<Chunk>)
    requires forall c :: c in t ==> IsBody(c)
    ensures BodyOf(t) == t
    decreases |t|
  {
    if |t| > 0 {
      assert t[0] in t;
      assert forall c :: c in t[1..] ==> c in t;
      BodyOfAll(t[1..]);
      assert t == [t[0]] + t[1..];
    }
  }

  /** The lines of a run of files are all body lines. */
  lemma {:induction false} FilesBody(fs: FileSystem, files: seq<string>)
    ensures BodyOf(FilesChunks(fs, files)) == FilesChunks(fs, files)
    decreases |files|
  {
    if |files| > 0 {
      var pre, f := files[..|files| - 1], files[|files| - 1];
      var fc := FileChunks(f, Contents(fs, f));
      FilesBody(fs, pre);
      BodyOfAll(fc);
      BodyOfAppend(FilesChunks(fs, pre), fc);
    }
  }

  /** The lines of two runs of files are the lines of the first, then those of the second. */
  lemma {:induction false} FilesChunksAppend(fs: FileSystem, a: seq<string>, b: seq<string>)
    ensures FilesChunks(fs, a + b) == FilesChunks(fs, a) + FilesChunks(fs, b)
    decreases |b|
  {
    if |b| == 0 {
      assert a + b == a;
    } else {
      var pre, f := b[..|b| - 1], b[|b| - 1];
      var fc := FileChunks(f, Contents(fs, f));
      SnocSplit(b);
      Assoc(a, pre, [f]);
      FilesChunksSnoc(fs, a + pre, f);
      FilesChunksAppend(fs, a, pre);
      Assoc(FilesChunks(fs, a), FilesChunks(fs, pre), fc);
    }
  }

  /** The body lines of a layout are those of its files, section after section. */
  lemma {:induction false} LayoutBody(opts: Options, fs: FileSystem, basePkg: string, secs: seq<Section>)
    ensures BodyOf(Layout(opts, fs, basePkg, secs)) == FilesChunks(fs, SectionFiles(secs))
    decreases |secs|
  {
    if |secs| > 0 {
      var pre, s := secs[..|secs| - 1], secs[|secs| - 1];
      var head := SectionHead(opts, fs, DisplayName(s.dir), PkgPath(basePkg, s.dir));
      var files := FilesChunks(fs, s.files);
      var layout := Layout(opts, fs, basePkg, pre);
      LayoutBody(opts, fs, basePkg, pre);
      HeadBody(opts, fs, DisplayName(s.dir), PkgPath(basePkg, s.dir));
      EndBody(opts, fs, s.dir);
      FilesBody(fs, s.files);
      var before := FilesChunks(fs, SectionFiles(pre));
      BodyOfAppend(head, files);
      assert BodyOf(head + files) == files by { assert [] + files == files; }
      BodyOfAppend(layout, head + files);
      BodyOfAppend(layout + (head + files), EndChunks(opts, fs, s.dir));
      assert BodyOf(Layout(opts, fs, basePkg, secs)) == before + files + [];
      assert before + files + [] == before + files;
      FilesChunksAppend(fs, SectionFiles(pre), s.files);
    }
  }

  /**
   The source-location and signature lines of the whole output are exactly
   those of the kept files, file after file in visiting order, none dropped,
   repeated or reordered.
   */
  lemma CollectBody(opts: Options, basePkg: string, fs: FileSystem, paths: seq<string>)
    requires CollectTrace(opts, basePkg, fs, paths).Success?
    ensures BodyOf(CollectTrace(opts, basePkg, fs, paths).value) == FilesChunks(fs, KeptFiles(paths))
  {
    CollectSections(opts, basePkg, fs, paths);
    var secs :| && CollectTrace(opts, basePkg, fs, paths).value == Layout(opts, fs, basePkg, secs)
                && SectionKeys(basePkg, secs) == Firsts(KeptPackages(basePkg, paths))
                && SectionFiles(secs) == KeptFiles(paths)
                && Grouped(basePkg, secs);
    LayoutBody(opts, fs, basePkg, secs);
  }

  // ------------------------------------------------------------ a revisit

  /**
   Files of packages A, B, A: two sections.  The third file's lines go into
   B's open section, after B's own file and before B's closing fence; A's
   section is not reopened.
   */
  lemma RevisitDoesNotReopen(opts: Options, basePkg: string, fs: FileSystem, p1: string, p2: string, p3: string)
    requires Kept(p1) && Kept(p2) && Kept(p3) && p1 in fs && p2 in fs && p3 in fs
    requires PackageDir(p3) == PackageDir(p1) && PackageDir(p1) != PackageDir(p2)
    ensures CollectTrace(opts, basePkg, fs, [p1, p2, p3])
            == Success(Layout(opts, fs, basePkg,
                              [Section(PackageDir(p1).value, [p1]), Section(PackageDir(p2).value, [p2, p3])]))
  {
    var sa, sb := Section(PackageDir(p1).value, [p1]), Section(PackageDir(p2).value, [p2, p3]);
    var st := RevisitRun(opts, basePkg, fs, p1, p2, p3);
    SnocDisplays(sa, sb, sb);
    var secs := Finish(opts, basePkg, fs, st, [p1, p2, p3], [] + [sa], sb);
  }

  /** The loop over files of packages A, B, A, read as sections. */
  lemma RevisitRun(opts: Options, basePkg: string, fs: FileSystem, p1: string, p2: string, p3: string)
    returns (st: Collector)
    requires Kept(p1) && Kept(p2) && Kept(p3) && p1 in fs && p2 in fs && p3 in fs
    requires PackageDir(p3) == PackageDir(p1) && PackageDir(p1) != PackageDir(p2)
    ensures Run(opts, basePkg, fs, Initial, [p1, p2, p3]) == Success(st)
    ensures st.seen != {}
    ensures SecInv(opts, basePkg, fs, st, [p1, p2, p3], [] + [Section(PackageDir(p1).value, [p1])],
                   Section(PackageDir(p2).value, [p2, p3]))
  {
    var da, db := PackageDir(p1).value, PackageDir(p2).value;
    var st1, st2 := RevisitTwo(opts, basePkg, fs, p1, p2);
    PkgPathInjective(basePkg, da, db);
    st := st2.(out := st2.out + FileChunks(p3, fs[p3]));
    StepSecSeen(opts, basePkg, fs, st2, [p1, p2], [] + [Section(da, [p1])], Section(db, [p2]), p3);
    SnocDisplays(p1, p2, p3);
    RunThree(opts, basePkg, fs, p1, p2, p3);
  }

  /** The first two files, of two different packages, open one section each. */
  lemma RevisitTwo(opts: Options, basePkg: string, fs: FileSystem, p1: string, p2: string)
    returns (st1: Collector, st2: Collector)
    requires Kept(p1) && Kept(p2) && p1 in fs && p2 in fs && PackageDir(p1) != PackageDir(p2)
    ensures Step(opts, basePkg, fs, Initial, p1) == Success(st1)
    ensures Step(opts, basePkg, fs, st1, p2) == Success(st2)
    ensures FileKey(basePkg, p1) in st2.seen
    ensures SecInv(opts, basePkg, fs, st2, [p1, p2], [] + [Section(PackageDir(p1).value, [p1])],
                   Section(PackageDir(p2).value, [p2]))
  {
    var da, db := PackageDir(p1).value, PackageDir(p2).value;
    PkgPathInjective(basePkg, da, db);
    st1 := RevisitOne(opts, basePkg, fs, p1);
    st2 := StepOpen(opts, basePkg, fs, st1, p2);
    SnocDisplays(p1, p2, p2);
    StepSecNew(opts, basePkg, fs, st1, [p1], [], Section(da, [p1]), p2);
  }

  /** The first kept file opens the first section. */
  lemma RevisitOne(opts: Options, basePkg: string, fs: FileSystem, p1: string)
    returns (st1: Collector)
    requires Kept(p1) && p1 in fs
    ensures Step(opts, basePkg, fs, Initial, p1) == Success(st1)
    ensures st1.seen == {FileKey(basePkg, p1)}
    ensures SecInv(opts, basePkg, fs, st1, [p1], [], Section(PackageDir(p1).value, [p1]))
  {
    var cur0 := Section("", []);
    assert SecInv(opts, basePkg, fs, Initial, [], [], cur0);
    st1 := StepOpen(opts, basePkg, fs, Initial, p1);
    StepSecFirst(opts, basePkg, fs, Initial, [], [], cur0, p1);
    FirstText(opts, basePkg, fs, Initial, p1);
    assert [] + [p1] == [p1];
  }

  /** The step for the first file of a package not seen yet. */
  lemma StepOpen(opts: Options, basePkg: string, fs: FileSystem, st: Collector, p: string)
    returns (st': Collector)
    requires Kept(p) && p in fs && FileKey(basePkg, p) !in st.seen
    ensures var st1 := OpenSection(opts, basePkg, fs, st, PackageDir(p).value);
            st' == st1.(out := st1.out + FileChunks(p, fs[p]))
    ensures Step(opts, basePkg, fs, st, p) == Success(st')
  {
    var st1 := OpenSection(opts, basePkg, fs, st, PackageDir(p).value);
    st' := st1.(out := st1.out + FileChunks(p, fs[p]));
  }

  /** A run starting with a successful step continues from that step's state. */
  lemma RunCons(opts: Options, basePkg: string, fs: FileSystem, st: Collector, p: string, rest: seq<string>)
    requires Step(opts, basePkg, fs, st, p).Success?
    ensures Run(opts, basePkg, fs, st, [p] + rest) == Run(opts, basePkg, fs, Step(opts, basePkg, fs, st, p).value, rest)
  {
    assert ([p] + rest)[0] == p && ([p] + rest)[1..] == rest;
  }

  /** Three successful steps make a successful run. */
  lemma RunThree(opts: Options, basePkg: string, fs: FileSystem, p1: string, p2: string, p3: string)
    requires Step(opts, basePkg, fs, Initial, p1).Success?
    ensures var st1 := Step(opts, basePkg, fs, Initial, p1).value;
            Step(opts, basePkg, fs, st1, p2).Success? ==>
            var st2 := Step(opts, basePkg, fs, st1, p2).value;
            Run(opts, basePkg, fs, Initial, [p1, p2, p3]) == Step(opts, basePkg, fs, st2, p3)
  {
    var st1 := Step(opts, basePkg, fs, Initial, p1).value;
    RunCons(opts, basePkg, fs, Initial, p1, [p2, p3]);
    assert [p1] + [p2, p3] == [p1, p2, p3];
    if Step(opts, basePkg, fs, st1, p2).Success? {
      var st2 := Step(opts, basePkg, fs, st1, p2).value;
      RunCons(opts, basePkg, fs, st1, p2, [p3]);
      assert [p2] + [p3] == [p2, p3];
      match Step(opts, basePkg, fs, st2, p3)
      case Failure(e) =>
        assert [p3][0] == p3;
      case Success(st3) =>
        RunCons(opts, basePkg, fs, st2, p3, []);
        assert [p3] + [] == [p3];
    }
  }
}
