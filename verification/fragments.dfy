/**
 Documentation fragments and top-level templates of the generator: how their
 file names are built from the package name and the language, and how a
 missing localized fragment falls back to the default-language one.
 */
module Fragments {
  import opened Wrappers
  import opened Text

  /** The file system the generator reads: path to contents; an absent path is a missing file. */
  type FileSystem = map<string, string>

  /** The language whose fragments and template carry no suffix. */
  const DefaultLang := "en"

  /** The two fragment roles: before a package's signatures and after them. */
  datatype Part = StartPart | EndPart

  /** "" for the default language, "." + lang otherwise. */
  function LangSuffix(lang: string): string {
    if lang == DefaultLang then "" else "." + lang
  }

  /** The fragment name templates `part-%s-s%s.md` (start) and `part-%s%s.md` (end), filled in. */
  function PartName(part: Part, pkgName: string, suffix: string): string {
    match part
    case StartPart => "part-" + pkgName + "-s" + suffix + ".md"
    case EndPart => "part-" + pkgName + suffix + ".md"
  }

  /** The top-level template's name: README.md.tpl, or README.<lang>.md.tpl for another language. */
  function TemplateName(lang: string): string {
    if lang == DefaultLang then "README.md.tpl" else "README." + lang + ".md.tpl"
  }

  /** A fragment is read as `tplDir + "/" + name`; a missing file and an empty one both count as absent. */
  function ReadPart(fs: FileSystem, tplDir: string, name: string): (r: Option<string>)
    ensures r.Some? <==> (tplDir + "/" + name in fs && fs[tplDir + "/" + name] != "")
    ensures r.Some? ==> r.value == fs[tplDir + "/" + name]
  {
    var path := tplDir + "/" + name;
    if path in fs && |fs[path]| > 0 then Some(fs[path]) else None
  }

  /**
   The fragment written for one package: the language-suffixed file when it
   exists and is non-empty, otherwise the unsuffixed one, otherwise nothing.
   */
  function LoadPart(fs: FileSystem, tplDir: string, lang: string, part: Part, pkgName: string): (r: Option<string>)
    ensures r.Some? ==> |r.value| > 0
    ensures ReadPart(fs, tplDir, PartName(part, pkgName, LangSuffix(lang))).Some? ==>
              r == ReadPart(fs, tplDir, PartName(part, pkgName, LangSuffix(lang)))
    ensures ReadPart(fs, tplDir, PartName(part, pkgName, LangSuffix(lang))).None? ==>
              r == ReadPart(fs, tplDir, PartName(part, pkgName, ""))
  {
    var localized := ReadPart(fs, tplDir, PartName(part, pkgName, LangSuffix(lang)));
    if localized.Some? then localized else ReadPart(fs, tplDir, PartName(part, pkgName, ""))
  }

  /** The default language reads exactly one file name; its retry asks for the same file again. */
  lemma DefaultLangSingleName(part: Part, pkgName: string)
    ensures PartName(part, pkgName, LangSuffix(DefaultLang)) == PartName(part, pkgName, "")
  {
  }

  /**
   Fallback: when the localized fragment is missing or empty, the
   default-language fragment's text is used; a fragment present under
   neither name contributes nothing and raises no error.
   */
  lemma LoadPartFallback(fs: FileSystem, tplDir: string, lang: string, part: Part, pkgName: string)
    requires tplDir + "/" + PartName(part, pkgName, LangSuffix(lang)) !in fs
             || fs[tplDir + "/" + PartName(part, pkgName, LangSuffix(lang))] == ""
    ensures tplDir + "/" + PartName(part, pkgName, "") in fs && fs[tplDir + "/" + PartName(part, pkgName, "")] != ""
            ==> LoadPart(fs, tplDir, lang, part, pkgName) == Some(fs[tplDir + "/" + PartName(part, pkgName, "")])
    ensures (tplDir + "/" + PartName(part, pkgName, "") !in fs || fs[tplDir + "/" + PartName(part, pkgName, "")] == "")
            ==> LoadPart(fs, tplDir, lang, part, pkgName) == None
  {
  }

  /** Distinct languages never share a fragment suffix. */
  lemma LangSuffixInjective(a: string, b: string)
    requires LangSuffix(a) == LangSuffix(b)
    ensures a == b
  {
    if a != DefaultLang && b != DefaultLang {
      assert a == LangSuffix(a)[1..];
    }
  }

  /** Distinct languages never share a top-level template. */
  lemma {:induction false} TemplateNameInjective(a: string, b: string)
    requires TemplateName(a) == TemplateName(b)
    ensures a == b
  {
    var ta, tb := TemplateName(a), TemplateName(b);
    if a != DefaultLang && b != DefaultLang {
      assert a == ta[7..|ta| - 7];
      assert b == tb[7..|tb| - 7];
    }
  }
}
