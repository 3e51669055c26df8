# goutil: documentation generator and environment probes, modelled in Dafny

This project models two pieces of the goutil repository.

The first is the README generator in `internal/gendoc/main.go`. It visits the
Go files one directory below the repository root, in glob order. Test files,
Windows-only files and the hidden packages (`netutil`, `numutil`, `internal`)
are skipped. From every line containing a match of `func [A-Z]\w+\(.*\).*`,
the text from the leftmost match to the end of the line is collected, with its
trailing `{` and spaces trimmed. The signatures are grouped into one section
per package: a heading, the package's start fragment, and a fenced Go block.
The block is closed before the next section and once more at the end, followed
by the end fragment. The collected text is then spliced into the first
`{{pgkFuncs}}` of the top-level template, or written raw when the template is
empty.

The second is the probe set in `envutil/info.go`: the platform predicates,
the memoised WSL check, and the three colour tiers decided from `TERM`,
`COLORTERM`, `ConEmuANSI` and `ANSICON`.

Files:

- `wrappers.dfy`: `Option` and `Result`.
- `text.dfy`: the Go `strings` operations used: prefix/suffix, `Contains`,
  `IndexRune`, `TrimRight`, `Replace(…, 1)`, line splitting and `strutil.UpperFirst`.
- `seqs.dfy`: `Firsts`, the distinct values of a stream in first-occurrence order.
- `signatures.dfy`: the signature regular expression as a per-line predicate and extractor.
- `fragments.dfy`: fragment and template names, and the fallback to the default language.
- `collect.dfy`: `collectPgkFunc`, written as a fold over an explicit state.
  The state holds the seen package paths, the last opened directory and the
  output trace.
- `sections.dfy`: the collected output read as a sequence of sections, one per
  kept package, each holding the lines of its files.
- `gendoc.dfy`: template reading and the placeholder splice of `main`.
- `envinfo.dfy`: the `envutil` probes.

The output buffer is modelled as a trace of chunks: heading, fragment, opening
fence, closing fence, source line and signature. `Render` turns a trace into
the text Go's `Fprintln`/`Fprintf` calls write. Fence and heading properties
are stated on the trace, because a fragment or a signature line can itself
contain three backquotes.

Panics become `Failure` results, in the order the source reaches them:

- a template directory whose template file is missing;
- a path that passes the suffix filters but has no `/`, where `filename[:-1]`
  panics;
- a kept source file that cannot be read.

A missing fragment and an empty fragment are both "absent", as with
`fsutil.ReadExistFile`. A missing source file or template is a fault, as with
`fsutil.MustReadFile`. An empty one is not.

The file system is a map from the path the source builds to the file's
contents:

- source files use the glob path;
- fragments use `tplDir + "/" + name`, so with an empty template directory
  they are looked up under `/`, exactly as the source does;
- the template uses `tplDir + "/" + TemplateName(lang)`.

Three behaviours of the code are easy to misread; the model follows the
code:

- Sections are keyed by a "seen" set, not by comparison with the previous
  file. Packages A, B, A give two sections, not three. The third file's
  signatures go into B's open fence (`Sections.RevisitDoesNotReopen`).
- The fallback to the unsuffixed fragment is attempted for every language.
  For `en` the retry reads the same file again (`Fragments.DefaultLangSingleName`).
- Filters apply in the order suffix, then `/` (panic), then hidden directory.
  They do not apply hidden directory first.

## Model

| member | source | states |
|---|---|---|
| `Collect.CollectShape` | internal/gendoc/main.go:172-252 | Every trace that completes is well fenced: opening and closing fences alternate, end closed, and every source line and signature is inside a fence. The headings name the distinct kept packages once each, in first-appearance order. There are as many opening fences as closing fences as distinct packages, and the trace is empty iff no file was kept |
| `Collect.RevisitHeadings` | internal/gendoc/main.go:202-204 | Kept packages A, B, A give exactly two headings, A then B, and two fences: a reappearing package opens no new section |
| `Collect.FinalShape` | internal/gendoc/main.go:245-249 | The final close turns any loop state that keeps the invariant into a well-fenced trace: headings are the distinct kept packages in first-appearance order, opening fences, closing fences and packages are equal in number, and the trace is empty iff nothing was kept |
| `Collect.RenderChunk` | internal/gendoc/main.go:223-240 | Every chunk is written as a non-empty text ending in a line break, and a heading starts with "\n### ". This covers the writes at lines 223-240, the fence at line 206 and the fragment at line 284. The exact text of each kind of chunk is read back line by line in `FenceLines`, `DocLines`, `HeadingLines` and `FileChunksLines` |
| `Collect.Render` | internal/gendoc/main.go:254-260 | The buffer ends in a line break whenever anything was written, and is at least one character per chunk |
| `Collect.RenderAppend` | internal/gendoc/main.go:258-260 | Writing two traces one after the other gives the concatenation of their texts: the buffer only ever grows at its end |
| `Collect.SigLinesRoundTrip` | internal/gendoc/main.go:239-241 | Signature lines written with `Fprintln` and split back at line breaks give the signatures in order, then the empty rest after the last break |
| `Collect.FenceLines` | internal/gendoc/main.go:230 | The opening fence reads back as the line "```go" and the closing fence (lines 206 and 246) as the line "```", each followed by the empty rest |
| `Collect.DocLines` | internal/gendoc/main.go:284 | A found fragment is written as its own lines followed by one line break, so it reads back as its lines and then the empty rest |
| `Collect.HeadingLines` | internal/gendoc/main.go:223-224 | A heading reads back as six lines: an empty line, "### " with the title's first letter upper-cased, an empty line, "> Package `" with the package path and a backquote, an empty line, and the empty rest |
| `Collect.FileChunksLines` | internal/gendoc/main.go:237-242 | The text one file writes, split at line breaks, is exactly the "// source at" line, then the file's signatures in order, then the empty rest |
| `Collect.SectionHead` | internal/gendoc/main.go:222-230 | A section opens with the heading for its package path, then exactly the start fragment looked up under the display name (or nothing), then the "```go" fence |
| `Collect.CloseSection` | internal/gendoc/main.go:245-249 | The same close is written between sections, at lines 205-210. Nothing is written iff no package was seen. Otherwise one "```" is written, followed by exactly the end fragment looked up under the raw directory of the section opened last |
| `Collect.Visit` | internal/gendoc/main.go:199-242 | A kept file aborts iff it cannot be read. Otherwise its package path joins the seen set, and a file of an already-seen package appends exactly its own lines to the trace |
| `Collect.Step` | internal/gendoc/main.go:181-243 | One loop iteration aborts iff the path passes the suffix filters and either has no `/` or is kept and unreadable. The fault is the slice panic for a path without `/`, and otherwise the read fault, naming that path. A skipped file leaves the state unchanged, and a kept file is visited under its package directory |
| `Collect.RunOutcome` | internal/gendoc/main.go:181-243 | The loop aborts only on a path of the list that passed the suffix filters. If it completes, every such path had a `/`, and every kept path was readable |
| `Collect.RunFirstFault` | internal/gendoc/main.go:181-243 | The loop aborts iff some listed path is faulty, so well-formed input always completes. When it aborts, the fault is the one of the first faulty path in list order |
| `Collect.CollectTrace` | internal/gendoc/main.go:172-252 | The facts of `RunOutcome` and `RunFirstFault` for the whole collection, including the final close: it fails iff some listed path is faulty, and then with the first faulty path's fault |
| `Collect.PkgPathInjective` | internal/gendoc/main.go:199 | Different package directories get different package paths, so the seen set tells directories apart |
| `Collect.DisplayNameUtilSuffix` | internal/gendoc/main.go:212-220 | A directory that does not end in "util" and the same directory with "util" appended get the same title |
| `Sections.CollectSections` | internal/gendoc/main.go:172-252 | Every completed trace is a layout of sections. Each section is its heading, its start fragment, "```go", the lines of its files, "```" and the end fragment of its own raw directory. The section titles are the distinct kept packages in first-appearance order. The files, read section after section, are exactly the kept files in visiting order. Each section starts with a file of its own package, and every later file in it belongs to a package that already has a section |
| `Sections.LayoutBody` | internal/gendoc/main.go:233-242 | The source and signature lines of a layout are exactly those of its sections' files, in order |
| `Sections.CollectText` | internal/gendoc/main.go:172-252 | The generated text is the rendering of a layout whose sections are the distinct kept packages in first-appearance order, holding exactly the kept files in visiting order |
| `Sections.RenderLayoutSnoc` | internal/gendoc/main.go:205-242 | The text of a layout with one more section is the text before it, then the new section's heading, start fragment, fence and file lines, then its close and end fragment |
| `Sections.CollectBody` | internal/gendoc/main.go:233-242 | The source and signature lines of the whole output are exactly those the kept files write, in visiting order |
| `Sections.RevisitDoesNotReopen` | internal/gendoc/main.go:202-242 | Kept files of packages A, B, A give exactly two sections. The first holds the first file. The second holds the second and third files, so the third file's lines go into B's open fence under B's heading |
| `Collect.DropSkipped` | internal/gendoc/main.go:183-197 | A `_test.go` file, a `_windows.go` file, or a file in a hidden directory leaves the output exactly as if it were absent |
| `Collect.KeptIsRead` | internal/gendoc/main.go:234 | A kept file is read: if it is missing, the run aborts on it |
| `Collect.NoSlashAborts` | internal/gendoc/main.go:192-193 | A path that passes the suffix filters but has no `/` aborts the run when reached |
| `Collect.SkippedStep` | internal/gendoc/main.go:183-197 | One loop iteration on a skipped file changes nothing and reads nothing |
| `Collect.StepInv` | internal/gendoc/main.go:181-243 | One loop iteration keeps the invariant: the seen set equals the kept packages so far, headings follow first-appearance order with one fence opened per heading, a fence is open iff some package was seen, and `dirname` names the section opened last |
| `Collect.RunInv` | internal/gendoc/main.go:181-243 | The whole loop keeps that invariant over any file sequence |
| `Collect.StepSeen` | internal/gendoc/main.go:202-203 | A file of an already-seen package only appends its lines inside the open fence, with no heading and no new fence |
| `Collect.StepNew` | internal/gendoc/main.go:204-231 | A file of a new package closes the previous fence (if any), adds exactly one heading for its package path and leaves exactly one fence open |
| `Collect.ClosingFacts` | internal/gendoc/main.go:205-210 | The close of the previous section, a "```" fence plus its end fragment, appears only while a section is open and leaves no fence open |
| `Collect.OpeningFacts` | internal/gendoc/main.go:223-230 | A section start names its package once, with its start fragment placed before the "```go" fence, and leaves one fence open |
| `Collect.AppendSection` | internal/gendoc/main.go:205-231 | Appending close-then-open to a well-placed trace adds one heading and one opening fence, and leaves the trace well placed and open |
| `Collect.DisplayName` | internal/gendoc/main.go:212-220 | The directory loses one trailing "util". If the result has an override, the title is exactly that override. Otherwise the title is exactly the stripped or unchanged directory |
| `Collect.DisplayNameMapped` | internal/gendoc/main.go:28-42 | `arrutil`, `strutil` and `envutil` are titled "array/Slice", "string" and "ENV" |
| `Collect.DisplayNameUnmapped` | internal/gendoc/main.go:212-220 | `timex` stays `timex`; `util` becomes the empty title; `utilutil` loses only one "util" |
| `Collect.PackageDir` | internal/gendoc/main.go:192-193 | The package directory is the text before the first `/`, and contains no `/`. There is none iff the path has no `/` |
| `Collect.FileChunks` | internal/gendoc/main.go:237-242 | A file writes nothing iff it has no signature. Otherwise it writes "// source at" with its path, then exactly one line per signature, in order, and only lines that belong inside a fence |
| `Collect.CollectPkgFunc` | internal/gendoc/main.go:245-251 | Succeeds exactly when the trace does, with the trace's fault otherwise. The returned buffer is the rendering of the collected trace, and it is empty when no file was kept |
| `Collect.ScanCounts` | internal/gendoc/main.go:206 | In any well-placed trace, opening fences and closing fences differ only by the open or closed state at the two ends |
| `Signatures.Extract` | internal/gendoc/main.go:177 | A line yields a signature iff the pattern matches somewhere on it. The result is the text from the leftmost match to end of line, with trailing "{" and " " removed. It still matches the pattern at its start and has no line break |
| `Signatures.MatchesAtIff` | internal/gendoc/main.go:177 | The scanner's test (whole run of word characters, then "(", then a later ")") matches the pattern's meaning at every index |
| `Signatures.MatchFrom` | internal/gendoc/main.go:235 | Finds the leftmost index at or after the start where the pattern matches, or reports that there is none |
| `Signatures.TrimmedMatch` | internal/gendoc/main.go:240 | Trimming "{ " never cuts into the ")" of the parameter list |
| `Signatures.ExtractIdempotent` | internal/gendoc/main.go:235-241 | Extracting from an extracted signature gives the same signature |
| `Signatures.SignaturesOfLines` | internal/gendoc/main.go:235-241 | Every line's signature is collected, and every collected string is some line's signature |
| `Signatures.SignaturesOfLine` | internal/gendoc/main.go:235-241 | One line yields its own signature if it has one, and nothing otherwise |
| `Signatures.SignaturesOfLinesAppend` | internal/gendoc/main.go:235-241 | The signatures of two runs of lines are those of the first run followed by those of the second: order is kept and nothing is dropped or added |
| `Signatures.FileSignatures` | internal/gendoc/main.go:235-241 | No collected signature contains a line break |
| `Signatures.FileSignaturesShape` | internal/gendoc/main.go:235-241 | Every collected signature starts with a pattern match and does not end in "{" or " " |
| `Signatures.FileSignaturesCons` | internal/gendoc/main.go:235 | The signatures of a text are those of its first line followed by those of the rest |
| `Signatures.ExtractExported` | internal/gendoc/main.go:177 | `func Foo(a int) string {` yields `func Foo(a int) string` |
| `Signatures.ExtractUnexported` | internal/gendoc/main.go:177 | `func bar(a int) {` yields nothing |
| `Signatures.ExtractReceiver` | internal/gendoc/main.go:177 | A receiver method `func (t *T) Name() string {` yields nothing |
| `Signatures.ExtractOneLetter` | internal/gendoc/main.go:177 | A one-letter name `func F(x int) {` yields nothing |
| `Signatures.FileSignaturesExample` | internal/gendoc/main.go:235-241 | A file with one exported and one unexported declaration yields only the exported one |
| `Fragments.LoadPart` | internal/gendoc/main.go:262-275 | The language-suffixed fragment is used when present and non-empty. Otherwise the unsuffixed one is tried. A fragment that is found is never empty |
| `Fragments.ReadPart` | internal/gendoc/main.go:277-288 | A fragment is found iff `tplDir/name` exists and is non-empty, and then it is found with that file's text |
| `Fragments.LoadPartFallback` | internal/gendoc/main.go:270-274 | If the localized fragment is missing or empty, the default fragment's text is used. If that is also absent, nothing is written and there is no error |
| `Fragments.DefaultLangSingleName` | internal/gendoc/main.go:263-273 | For `en`, the suffixed and unsuffixed fragment names are the same file |
| `Fragments.LangSuffixInjective` | internal/gendoc/main.go:263-266 | Different languages never share a fragment suffix |
| `Fragments.TemplateNameInjective` | internal/gendoc/main.go:66-72 | Different languages never share a top-level template name |
| `Gendoc.ReadTemplate` | internal/gendoc/main.go:143-148 | There is no template without a template directory. With one, the template is the file's contents, and a missing file aborts |
| `Gendoc.Splice` | internal/gendoc/main.go:155-160 | An empty template gives the collected text raw. A template without the placeholder is unchanged. Otherwise the first placeholder is replaced by the collected text, and everything before and after it is kept |
| `Gendoc.SpliceInverse` | internal/gendoc/main.go:157 | Putting the placeholder back over the inserted text restores the template byte for byte |
| `Gendoc.SecondPlaceholderKept` | internal/gendoc/main.go:157 | A later, separate placeholder survives the splice, shifted by the size change |
| `Gendoc.Generate` | internal/gendoc/main.go:143-160 | A template fault aborts before collection. Otherwise the run succeeds iff collection does, and the output is the splice of the template with the collected text |
| `Gendoc.MissingTemplateAborts` | internal/gendoc/main.go:144-153 | A configured template directory without the template aborts with that template's fault, whatever the source files are: the template is read before any collection |
| `Gendoc.NoTemplateRaw` | internal/gendoc/main.go:144-159 | Without a template directory, the output is exactly the collected text |
| `Text.ReplaceFirst` | internal/gendoc/main.go:157 | Only the first occurrence of the pattern is replaced. A string without it is returned unchanged |
| `Text.TrimRight` | internal/gendoc/main.go:240 | The result is the longest prefix whose last character is not in the cut set. Everything removed is in the cut set |
| `Text.Lines` | internal/gendoc/main.go:235 | Lines contain no line break, and joining them with "\n" gives the text back |
| `Text.IndexRune` | internal/gendoc/main.go:192 | Gives the first index of the character, or none iff the character does not occur |
| `Text.UpperFirst` | internal/gendoc/main.go:223 | An ASCII lower-case first letter is upper-cased. All other characters are unchanged |
| `EnvInfo.PlatformsExclusive` | envutil/info.go:14-31 | `IsWin` and `IsWindows` agree, and a platform name satisfies at most one of `IsWin`, `IsMac` and `IsLinux` |
| `EnvInfo.IsWSL` | envutil/info.go:38-55 | After any call the probe is marked done. The file is consulted only on the first call. A failed open keeps the old contents. The answer is whether the cached contents contain "Microsoft" |
| `EnvInfo.WslMemoised` | envutil/info.go:43-55 | A second call returns the first call's answer and cache, whatever the file holds by then |
| `EnvInfo.WslOpenFails` | envutil/info.go:44-54 | If the file cannot be opened on the first call, the answer is false and the cached contents stay empty |
| `EnvInfo.IsSupportTrueColor` | envutil/info.go:143-146 | True iff `COLORTERM` contains "truecolor" |
| `EnvInfo.IsSupport256Color` | envutil/info.go:128-140 | True iff `TERM` contains "256color" or true colour is supported |
| `EnvInfo.IsSupportColor` | envutil/info.go:102-125 | True iff any of these holds: `TERM` contains "xterm"; `TERM` is "alacritty"; `ConEmuANSI` is exactly "ON"; `ANSICON` is non-empty; 256 colours are supported |
| `EnvInfo.ColorTiers` | envutil/info.go:123-137 | True colour implies 256 colours, which implies basic colour |
| `EnvInfo.DocumentedColorTerms` | envutil/info.go:83-89 | Each documented colour terminal name supports colour, whatever the other variables hold |
| `EnvInfo.CygwinHasNoColor` | envutil/info.go:90-91 | `TERM=cygwin`, with the other variables empty, does not support colour |

## Left out

- Flag parsing and usage text (`bindingFlags`): the options are an input record holding the language and the template directory.
- Output destination: opening the output file or stdout, `defer Close`, and write errors.
- `filepath.Glob`: the path list is an input, in whatever order the glob gave.
- Logging through `color` and `dump`, the `pkgNames` global, and the unused `pkgDesc`/`allowLang` tables: none affect the generated text.
- `path.Join` cleaning in `tplFilepath`: the template path is the template directory, "/" and the template name.
- `Signatures.FileSignatures`: `FindAllString` on the whole text is modelled as one leftmost match per line. Neither `.` nor `\w` crosses a line break, and the greedy final `.*` runs to the end of the line. UTF-8 decoding is not modelled: text is a sequence of characters.
- `Text.UpperFirst`: `strutil.UpperFirst` is not part of this model. It is modelled as ASCII upper-casing of the first character.
- `EnvInfo.IsWSL`: the cached contents are the whole probe text. The model does not keep only the first 1024 bytes padded with NUL bytes. The probe is an optional string, not a real read of `/proc/version`.
- `IsTerminal`, `StdIsTerminal`, `IsConsole`, `HasShellEnv`, `IsMSys`: thin calls into `isatty` and `sysutil`, which are not part of this model.
- `timex/timex.go`: a wrapper over Go's `time.Time`. Its calendar arithmetic, formatting and time zones come from a library that is not part of this model.
