/**
 The generator's entry point after flag parsing: read the top-level
 template, collect the signatures, and splice the collected text into the
 template's `{{pgkFuncs}}` placeholder (or emit it raw without a template).
 */
module Gendoc {
  import opened Wrappers
  import opened Text
  import opened Fragments
  import opened Collect

  /** The import path every package path starts with. */
  const BasePkg := "github.com/gookit/goutil"

  /** The token of the top-level template that receives the collected text. */
  const Placeholder := "{{pgkFuncs}}"

  /** Where the template is read from: the template directory and the language's template name. */
  function TemplatePath(opts: Options): string {
    opts.tplDir + "/" + TemplateName(opts.lang)
  }

  /**
   The template body: empty when no template directory is configured; the
   file's contents otherwise, a missing template aborting the run.
   */
  function ReadTemplate(opts: Options, fs: FileSystem): (r: Result<string, Fault>)
    ensures opts.tplDir == "" ==> r == Success("")
    ensures opts.tplDir != "" && TemplatePath(opts) !in fs ==> r == Failure(Unreadable(TemplatePath(opts)))
    ensures opts.tplDir != "" && TemplatePath(opts) in fs ==> r == Success(fs[TemplatePath(opts)])
  {
    if opts.tplDir == "" then Success("")
    else if TemplatePath(opts) in fs then Success(fs[TemplatePath(opts)])
    else Failure(Unreadable(TemplatePath(opts)))
  }

  /**
   The final text: a non-empty template with its first placeholder replaced
   by the collected text and nothing else changed; the collected text alone
   when the template is empty.
   */
  function Splice(tpl: string, buf: string): (r: string)
    ensures tpl == "" ==> r == buf
    ensures tpl != "" && (forall i :: !OccursAt(tpl, Placeholder, i)) ==> r == tpl
    ensures forall i :: tpl != "" && FirstAt(tpl, Placeholder, i) ==> r == tpl[..i] + buf + tpl[i + |Placeholder|..]
  {
    if |tpl| > 0 then ReplaceFirst(tpl, Placeholder, buf) else buf
  }

  /** The whole run: template, collection, splice; the first fault aborts it. */
  function Generate(opts: Options, fs: FileSystem, paths: seq<string>): (r: Result<string, Fault>)
    ensures ReadTemplate(opts, fs).Failure? ==> r == Failure(ReadTemplate(opts, fs).error)
    ensures ReadTemplate(opts, fs).Success? ==>
              (r.Success? <==> CollectPkgFunc(opts, BasePkg, fs, paths).Success?)
    ensures r.Success? ==>
              r.value == Splice(ReadTemplate(opts, fs).value, CollectPkgFunc(opts, BasePkg, fs, paths).value)
  {
    var tpl :- ReadTemplate(opts, fs);
    var buf :- CollectPkgFunc(opts, BasePkg, fs, paths);
    Success(Splice(tpl, buf))
  }

  /**
   Un-splicing: putting the placeholder back where the collected text went
   gives the template again, so the template is unchanged outside that span.
   */
  lemma SpliceInverse(tpl: string, buf: string, i: nat)
    requires tpl != "" && FirstAt(tpl, Placeholder, i)
    ensures var r := Splice(tpl, buf);
            && i + |buf| <= |r|
            && r[i..i + |buf|] == buf
            && r[..i] + Placeholder + r[i + |buf|..] == tpl
  {
    var r := Splice(tpl, buf);
    assert r == tpl[..i] + buf + tpl[i + |Placeholder|..];
    assert r[..i] == tpl[..i];
    assert r[i + |buf|..] == tpl[i + |Placeholder|..];
    assert tpl[i..i + |Placeholder|] == Placeholder;
    assert tpl == tpl[..i] + tpl[i..i + |Placeholder|] + tpl[i + |Placeholder|..];
  }

  /** Only the first placeholder is replaced: a later, separate one survives, shifted by the size change. */
  lemma SecondPlaceholderKept(tpl: string, buf: string, i: nat, j: nat)
    requires tpl != "" && FirstAt(tpl, Placeholder, i)
    requires i + |Placeholder| <= j && OccursAt(tpl, Placeholder, j)
    ensures OccursAt(Splice(tpl, buf), Placeholder, j - |Placeholder| + |buf|)
  {
    ReplaceFirstKeepsLater(tpl, Placeholder, buf, i, j);
  }

  /** With no template directory the collected text is the output, byte for byte. */
  lemma NoTemplateRaw(opts: Options, fs: FileSystem, paths: seq<string>)
    requires opts.tplDir == ""
    requires CollectPkgFunc(opts, BasePkg, fs, paths).Success?
    ensures Generate(opts, fs, paths) == CollectPkgFunc(opts, BasePkg, fs, paths)
  {
  }

  /**
   A configured but missing template aborts the whole run before any source
   file is read, so its fault wins over any fault collection would meet.
   */
  lemma MissingTemplateAborts(opts: Options, fs: FileSystem, paths: seq<string>)
    requires opts.tplDir != "" && TemplatePath(opts) !in fs
    ensures Generate(opts, fs, paths) == Failure(Unreadable(TemplatePath(opts)))
  {
  }
}
