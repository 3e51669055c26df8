/**
 Signature extraction in the documentation generator: the single regular
 expression `func [A-Z]\w+\(.*\).*` applied to a Go source text, followed by
 trimming trailing "{" and " " characters.  Neither `.` nor `\w` matches a
 line break, so every match lies inside one line and, because the final `.*`
 is greedy, runs to the end of that line; the expression is therefore
 modelled as a per-line predicate and a per-line extractor.
 */
module Signatures {
  import opened Wrappers
  import opened Text

  /** The characters trimmed off the end of a match. */
  const TrimSet := "{ "

  /** `\w` in Go's regexp syntax: ASCII letters, digits and underscore. */
  predicate IsWord(c: char) {
    'a' <= c <= 'z' || 'A' <= c <= 'Z' || '0' <= c <= '9' || c == '_'
  }

  /** `[A-Z]` */
  predicate IsUpper(c: char) {
    'A' <= c <= 'Z'
  }

  /** Every character of `line[a..b]` is a word character. */
  predicate WordsBetween(line: string, a: int, b: int) {
    0 <= a <= b <= |line| && forall i :: a <= i < b ==> IsWord(line[i])
  }

  /**
   The pattern `func [A-Z]\w+\(.*\)` matches `line` starting at index `k`:
   "func ", an upper-case letter, one or more word characters, "(", and a
   later ")" on the same line.
   */
  predicate PatternAt(line: string, k: int) {
    && OccursAt(line, "func ", k)
    && k + 5 < |line| && IsUpper(line[k + 5])
    && exists e :: k + 6 < e < |line| && WordsBetween(line, k + 6, e) && line[e] == '('
                   && exists j :: e < j < |line| && line[j] == ')'
  }

  /** `k` is the leftmost index where the pattern matches (where the regexp engine reports its match). */
  predicate LeftmostAt(line: string, k: int) {
    PatternAt(line, k) && forall j :: 0 <= j < k ==> !PatternAt(line, j)
  }

  /** The end of the run of word characters that starts at `j`. */
  function WordRunEnd(line: string, j: nat): (e: nat)
    requires j <= |line|
    ensures j <= e <= |line| && WordsBetween(line, j, e)
    ensures e < |line| ==> !IsWord(line[e])
    decreases |line| - j
  {
    if j < |line| && IsWord(line[j]) then WordRunEnd(line, j + 1) else j
  }

  /** The match test as a scanner computes it: the word run is taken whole, since "(" is not a word character. */
  predicate MatchesAt(line: string, k: nat) {
    && OccursAt(line, "func ", k)
    && k + 5 < |line| && IsUpper(line[k + 5])
    && var e := WordRunEnd(line, k + 6);
       k + 6 < e < |line| && line[e] == '(' && ')' in line[e + 1..]
  }

  /** The scanner's test and the pattern agree at every index. */
  lemma MatchesAtIff(line: string, k: nat)
    ensures MatchesAt(line, k) <==> PatternAt(line, k)
  {
    if MatchesAt(line, k) {
      var e := WordRunEnd(line, k + 6);
      var j' :| 0 <= j' < |line[e + 1..]| && line[e + 1..][j'] == ')';
      assert line[e + 1 + j'] == ')';
    }
    if PatternAt(line, k) {
      var e :| k + 6 < e < |line| && WordsBetween(line, k + 6, e) && line[e] == '('
               && exists j :: e < j < |line| && line[j] == ')';
      var j :| e < j < |line| && line[j] == ')';
      var e' := WordRunEnd(line, k + 6);
      assert e' == e;
      assert line[e + 1..][j - e - 1] == ')';
    }
  }

  /** The leftmost index at or after `k` where the pattern matches. */
  function MatchFrom(line: string, k: nat): (r: Option<nat>)
    requires k <= |line|
    ensures r.Some? ==> k <= r.value < |line| && PatternAt(line, r.value)
    ensures r.Some? ==> forall j :: k <= j < r.value ==> !PatternAt(line, j)
    ensures r.None? ==> forall j :: k <= j ==> !PatternAt(line, j)
    decreases |line| - k
  {
    MatchesAtIff(line, k);
    if k == |line| then None
    else if MatchesAt(line, k) then Some(k)
    else MatchFrom(line, k + 1)
  }

  /**
   The signature a line contributes: the match from its leftmost start to
   the end of the line, with trailing "{" and " " removed; nothing when the
   pattern matches nowhere on the line.
   */
  function Extract(line: string): (r: Option<string>)
    ensures r.Some? <==> exists k :: PatternAt(line, k)
    ensures forall k :: LeftmostAt(line, k) ==> r == Some(TrimRight(line[k..], TrimSet))
    ensures r.Some? ==> PatternAt(r.value, 0)
    ensures r.Some? ==> r.value[|r.value| - 1] !in TrimSet
    ensures '\n' in line || r.None? || '\n' !in r.value
  {
    match MatchFrom(line, 0)
    case None => None
    case Some(k) =>
      var m := TrimRight(line[k..], TrimSet);
      assert forall k' :: LeftmostAt(line, k') ==> k' == k;
      TrimmedMatch(line, k);
      assert '\n' !in line ==> '\n' !in m by {
        if '\n' in m {
          var i :| 0 <= i < |m| && m[i] == '\n';
          assert line[k + i] == '\n';
        }
      }
      Some(m)
  }

  /** Trimming never cuts into the ")" that closes the parameter list, so the trimmed text still matches at 0. */
  lemma TrimmedMatch(line: string, k: nat)
    requires PatternAt(line, k)
    ensures var m := TrimRight(line[k..], TrimSet);
            PatternAt(m, 0) && m[|m| - 1] !in TrimSet
  {
    var s := line[k..];
    var m := TrimRight(s, TrimSet);
    var e :| k + 6 < e < |line| && WordsBetween(line, k + 6, e) && line[e] == '('
             && exists j :: e < j < |line| && line[j] == ')';
    var j :| e < j < |line| && line[j] == ')';
    assert s[j - k] == ')';
    assert ')' !in TrimSet;
    assert |m| > j - k;
    assert m == s[..|m|];
    assert m[..5] == line[k..k + 5];
    assert WordsBetween(m, 6, e - k);
    assert m[e - k] == '(' && m[j - k] == ')';
  }

  /** Extraction is idempotent: a signature, read again as a line, yields itself. */
  lemma ExtractIdempotent(line: string)
    requires Extract(line).Some?
    ensures Extract(Extract(line).value) == Extract(line)
  {
    var m := Extract(line).value;
    assert LeftmostAt(m, 0);
    assert TrimRight(m[0..], TrimSet) == m by {
      assert m[0..] == m;
    }
  }

  /** What Extract finds starts with a match and ends in neither "{" nor " ". */
  lemma ExtractShape(line: string)
    requires Extract(line).Some?
    ensures PatternAt(Extract(line).value, 0) && Extract(line).value[|Extract(line).value| - 1] !in TrimSet
  {
  }

  /** The signatures of a sequence of lines, in line order. */
  function SignaturesOfLines(ls: seq<string>): (r: seq<string>)
    ensures |r| <= |ls|
    ensures forall i :: 0 <= i < |ls| && Extract(ls[i]).Some? ==> Extract(ls[i]).value in r
    ensures forall s :: s in r ==> exists i :: 0 <= i < |ls| && Extract(ls[i]) == Some(s)
  {
    if |ls| == 0 then []
    else
      var rest := SignaturesOfLines(ls[1..]);
      assert forall i :: 1 <= i < |ls| ==> ls[i] == ls[1..][i - 1];
      match Extract(ls[0])
      case None => rest
      case Some(s) => [s] + rest
  }

  /** The trimmed signatures `reg.FindAllString(text, -1)` collects from one source file, one line at a time. */
  function FileSignatures(text: string): (r: seq<string>)
    ensures forall s :: s in r ==> '\n' !in s
  {
    var ls := Lines(text);
    var r := SignaturesOfLines(ls);
    assert forall s :: s in r ==> '\n' !in s by {
      forall s | s in r ensures '\n' !in s {
        var i :| 0 <= i < |ls| && Extract(ls[i]) == Some(s);
      }
    }
    r
  }

  /** Every collected signature starts with a match of the pattern and ends in neither "{" nor " ". */
  lemma FileSignaturesShape(text: string)
    ensures forall s :: s in FileSignatures(text) ==> PatternAt(s, 0) && s[|s| - 1] !in TrimSet
  {
    var ls := Lines(text);
    forall s | s in FileSignatures(text) ensures PatternAt(s, 0) && s[|s| - 1] !in TrimSet {
      var i :| 0 <= i < |ls| && Extract(ls[i]) == Some(s);
      ExtractShape(ls[i]);
    }
  }

  /** The signatures of one line: its match, if it has one. */
  lemma SignaturesOfLine(l: string)
    ensures SignaturesOfLines([l]) == (match Extract(l) case None => [] case Some(s) => [s])
  {
    assert [l][1..] == [];
  }

  /** Lines are read in order: the signatures of two runs of lines are those of the first, then the second's. */
  lemma {:induction false} SignaturesOfLinesAppend(a: seq<string>, b: seq<string>)
    ensures SignaturesOfLines(a + b) == SignaturesOfLines(a) + SignaturesOfLines(b)
    decreases |a|
  {
    if |a| == 0 {
      assert a + b == b;
    } else {
      assert (a + b)[0] == a[0] && (a + b)[1..] == a[1..] + b;
      SignaturesOfLinesAppend(a[1..], b);
      match Extract(a[0])
      case None =>
      case Some(s) =>
        assert [s] + (SignaturesOfLines(a[1..]) + SignaturesOfLines(b))
            == [s] + SignaturesOfLines(a[1..]) + SignaturesOfLines(b);
    }
  }

  /**
   A file read line by line: the signature of the first line, if it has one,
   comes before every signature of the rest of the file.
   */
  lemma FileSignaturesCons(a: string, b: string)
    requires '\n' !in a
    ensures FileSignatures(a + "\n" + b) == FileSignatures(a) + FileSignatures(b)
  {
    LinesCons(a, b);
    LinesSingle(a);
    SignaturesOfLinesAppend([a], Lines(b));
  }

  // ---------------------------------------------------------------- examples

  lemma ExportedLeftmost(l: string)
    requires l == "func Foo(a int) string {"
    ensures LeftmostAt(l, 0)
  {
    assert l[0..5] == "func ";
    assert WordsBetween(l, 6, 8);
    assert l[8] == '(' && l[14] == ')';
  }

  lemma ExportedTrimmed(l: string)
    requires l == "func Foo(a int) string {"
    ensures TrimRight(l, TrimSet) == "func Foo(a int) string"
  {
    var r := TrimRight(l, TrimSet);
    assert l[21] !in TrimSet;
    assert |r| == 22;
    assert r == l[..22];
  }

  /** An exported function's line yields its signature without the body brace and the space before it. */
  lemma ExtractExported()
    ensures Extract("func Foo(a int) string {") == Some("func Foo(a int) string")
  {
    var l := "func Foo(a int) string {";
    ExportedLeftmost(l);
    ExportedTrimmed(l);
    assert l[0..] == l;
  }

  lemma NoMatchLower(l: string)
    requires l == "func bar(a int) {"
    ensures forall k :: !PatternAt(l, k)
  {
  }

  /** An unexported function yields nothing. */
  lemma ExtractUnexported()
    ensures Extract("func bar(a int) {") == None
  {
    NoMatchLower("func bar(a int) {");
  }

  lemma NoMatchReceiver(l: string)
    requires l == "func (t *T) Name() string {"
    ensures forall k :: !PatternAt(l, k)
  {
    forall k ensures !PatternAt(l, k) {
      if OccursAt(l, "func ", k) {
        assert l[k..k + 5][0] == l[k];
      }
    }
  }

  /** A method with a receiver yields nothing: "(" stands where the upper-case letter must be. */
  lemma ExtractReceiver()
    ensures Extract("func (t *T) Name() string {") == None
  {
    NoMatchReceiver("func (t *T) Name() string {");
  }

  lemma NoMatchOneLetter(l: string)
    requires l == "func F(x int) {"
    ensures forall k :: !PatternAt(l, k)
  {
    forall k ensures !PatternAt(l, k) {
      if OccursAt(l, "func ", k) {
        assert l[k..k + 5][0] == l[k];
        assert !IsWord(l[6]);
      }
    }
  }

  /** A one-letter name yields nothing: the pattern needs a second word character before "(". */
  lemma ExtractOneLetter()
    ensures Extract("func F(x int) {") == None
  {
    NoMatchOneLetter("func F(x int) {");
  }

  lemma TwoLineSignatures(a: string, b: string)
    requires Extract(a).Some? && Extract(b).None?
    ensures SignaturesOfLines([a, b]) == [Extract(a).value]
  {
    assert [a, b][1..] == [b];
    assert [b][1..] == [];
  }

  lemma FileExample(t: string)
    requires t == "func Foo(a int) string {\nfunc bar(a int) {"
    ensures FileSignatures(t) == ["func Foo(a int) string"]
  {
    var a, b := "func Foo(a int) string {", "func bar(a int) {";
    assert t == a + "\n" + b;
    LinesCons(a, b);
    LinesSingle(b);
    ExtractExported();
    ExtractUnexported();
    TwoLineSignatures(a, b);
  }

  /** Of an exported and an unexported declaration, only the exported one is collected. */
  lemma FileSignaturesExample()
    ensures FileSignatures("func Foo(a int) string {\nfunc bar(a int) {") == ["func Foo(a int) string"]
  {
    FileExample("func Foo(a int) string {\nfunc bar(a int) {");
  }
}
