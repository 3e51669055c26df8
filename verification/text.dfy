/**
 The handful of Go `strings` operations the generator and the environment
 probes rely on, over `string` = `seq<char>`.  Each scanning function is
 written the way it computes and promises, in its contract, the declarative
 meaning a reader expects (an occurrence exists, the first one is found, ...).
 */
module Text {
  import opened Wrappers
  import Seqs

  /** strings.HasPrefix */
  predicate HasPrefix(s: string, p: string) {
    |p| <= |s| && s[..|p|] == p
  }

  /** strings.HasSuffix */
  predicate HasSuffix(s: string, p: string) {
    |p| <= |s| && s[|s| - |p|..] == p
  }

  /** `sub` occurs in `s` starting at index `i`. */
  predicate OccursAt(s: string, sub: string, i: int) {
    0 <= i && i + |sub| <= |s| && s[i..i + |sub|] == sub
  }

  /** Shifting the text by one character shifts every occurrence by one. */
  lemma OccursAtTail(s: string, sub: string, i: int)
    requires |s| > 0 && 0 <= i
    ensures OccursAt(s, sub, i + 1) <==> OccursAt(s[1..], sub, i)
  {
    if i + 1 + |sub| <= |s| {
      assert s[1..][i..i + |sub|] == s[i + 1..i + 1 + |sub|];
    }
  }

  /** strings.Contains, scanning from the left. */
  function Contains(s: string, sub: string): (r: bool)
    ensures r <==> exists i :: OccursAt(s, sub, i)
    decreases |s|
  {
    if HasPrefix(s, sub) then
      assert OccursAt(s, sub, 0);
      true
    else if |s| == 0 then
      false
    else
      var rest := Contains(s[1..], sub);
      assert rest ==> exists i :: OccursAt(s, sub, i) by {
        if rest {
          var i :| OccursAt(s[1..], sub, i);
          OccursAtTail(s, sub, i);
        }
      }
      assert (exists i :: OccursAt(s, sub, i)) ==> rest by {
        if exists i :: OccursAt(s, sub, i) {
          var i :| OccursAt(s, sub, i);
          assert i != 0;
          OccursAtTail(s, sub, i - 1);
        }
      }
      rest
  }

  /** strings.IndexRune: the index of the first `c` in `s`, if any. */
  function IndexRune(s: string, c: char): (r: Option<nat>)
    ensures r.None? <==> c !in s
    ensures r.Some? ==> r.value < |s| && s[r.value] == c && c !in s[..r.value]
  {
    if |s| == 0 then None
    else if s[0] == c then Some(0)
    else match IndexRune(s[1..], c)
      case None => None
      case Some(i) =>
        assert s[..i + 1] == [s[0]] + s[1..][..i];
        Some(i + 1)
  }

  /** strings.TrimRight: drop every trailing character that belongs to `cutset`. */
  function TrimRight(s: string, cutset: string): (r: string)
    ensures |r| <= |s| && r == s[..|r|]
    ensures |r| > 0 ==> r[|r| - 1] !in cutset
    ensures forall i :: |r| <= i < |s| ==> s[i] in cutset
  {
    if |s| > 0 && s[|s| - 1] in cutset then
      var r := TrimRight(s[..|s| - 1], cutset);
      assert s[..|s| - 1][..|r|] == s[..|r|];
      r
    else
      s
  }

  /** strutil.UpperFirst: an ASCII lower-case first letter is upper-cased, nothing else changes. */
  function UpperFirst(s: string): (r: string)
    ensures |r| == |s|
    ensures |s| > 0 ==> r[1..] == s[1..]
    ensures |s| > 0 && 'a' <= s[0] <= 'z' ==> 'A' <= r[0] <= 'Z' && r[0] as int == s[0] as int - 32
    ensures |s| > 0 && !('a' <= s[0] <= 'z') ==> r == s
  {
    if |s| > 0 && 'a' <= s[0] <= 'z' then [(s[0] as int - 32) as char] + s[1..] else s
  }

  /** Upper-casing the first letter never makes a line break. */
  lemma UpperFirstNoBreak(s: string)
    requires '\n' !in s
    ensures '\n' !in UpperFirst(s)
  {
    var r := UpperFirst(s);
    if |s| > 0 {
      assert r == [r[0]] + s[1..];
      assert s == [s[0]] + s[1..];
    }
  }

  /** The first occurrence of `sub` at or after `from`, if any. */
  function FindFrom(s: string, sub: string, from: nat): (r: Option<nat>)
    ensures r.Some? ==> from <= r.value && OccursAt(s, sub, r.value)
    ensures r.Some? ==> forall j :: from <= j < r.value ==> !OccursAt(s, sub, j)
    ensures r.None? ==> forall j :: from <= j ==> !OccursAt(s, sub, j)
    decreases |s| - from
  {
    if from + |sub| > |s| then None
    else if OccursAt(s, sub, from) then Some(from)
    else FindFrom(s, sub, from + 1)
  }

  /** `i` is the first place `sub` occurs in `s`. */
  predicate FirstAt(s: string, sub: string, i: int) {
    OccursAt(s, sub, i) && forall j :: 0 <= j < i ==> !OccursAt(s, sub, j)
  }

  /**
   strings.Replace(s, pat, repl, 1): the first occurrence of `pat` is replaced
   by `repl`; a string without `pat` comes back unchanged.
   */
  function ReplaceFirst(s: string, pat: string, repl: string): (r: string)
    ensures (forall i :: !OccursAt(s, pat, i)) ==> r == s
    ensures forall i :: FirstAt(s, pat, i) ==> r == s[..i] + repl + s[i + |pat|..]
  {
    match FindFrom(s, pat, 0)
    case None => s
    case Some(i) =>
      assert forall k :: FirstAt(s, pat, k) ==> k == i;
      s[..i] + repl + s[i + |pat|..]
  }

  /** ReplaceFirst at the first occurrence. */
  lemma ReplaceFirstAt(s: string, pat: string, repl: string, i: int)
    requires FirstAt(s, pat, i)
    ensures ReplaceFirst(s, pat, repl) == s[..i] + repl + s[i + |pat|..]
  {
  }

  /** An occurrence inside a suffix is an occurrence in the whole text, shifted by the prefix. */
  lemma OccursInSuffix(pre: string, tail: string, sub: string, m: int)
    requires OccursAt(tail, sub, m)
    ensures OccursAt(pre + tail, sub, |pre| + m)
  {
    assert (pre + tail)[|pre| + m..|pre| + m + |sub|] == tail[m..m + |sub|];
  }

  /** An occurrence at or after `cut` is still there once the text before `cut` is replaced by `pre`. */
  lemma ShiftOccurrence(s: string, pat: string, pre: string, cut: int, j: int)
    requires 0 <= cut <= j && OccursAt(s, pat, j)
    ensures OccursAt(pre + s[cut..], pat, |pre| + j - cut)
  {
    var tail := s[cut..];
    assert tail[j - cut..j - cut + |pat|] == s[j..j + |pat|];
    OccursInSuffix(pre, tail, pat, j - cut);
  }

  /** Replacing `s[i..i + |pat|]` by `repl` keeps an occurrence at `j` past it, shifted by the size change. */
  lemma SpliceKeepsLater(s: string, pat: string, repl: string, i: int, j: int)
    requires 0 <= i && i + |pat| <= j && OccursAt(s, pat, j)
    ensures OccursAt(s[..i] + repl + s[i + |pat|..], pat, j - |pat| + |repl|)
  {
    ShiftOccurrence(s, pat, s[..i] + repl, i + |pat|, j);
  }

  /** A later occurrence that does not overlap the first survives ReplaceFirst, shifted by the size change. */
  lemma ReplaceFirstKeepsLater(s: string, pat: string, repl: string, i: int, j: int)
    requires FirstAt(s, pat, i)
    requires i + |pat| <= j && OccursAt(s, pat, j)
    ensures OccursAt(ReplaceFirst(s, pat, repl), pat, j - |pat| + |repl|)
  {
    ReplaceFirstAt(s, pat, repl, i);
    SpliceKeepsLater(s, pat, repl, i, j);
  }

  /** Join lines with "\n" between them (the inverse of splitting a text into lines). */
  function JoinLines(ls: seq<string>): string
    requires |ls| > 0
  {
    if |ls| == 1 then ls[0] else ls[0] + "\n" + JoinLines(ls[1..])
  }

  /**
   The lines of a text: the maximal "\n"-free pieces between line breaks.  A
   text ending in "\n" has an empty last line, as with strings.Split.
   */
  function Lines(t: string): (r: seq<string>)
    ensures |r| > 0
    ensures forall i :: 0 <= i < |r| ==> '\n' !in r[i]
    ensures JoinLines(r) == t
    decreases |t|
  {
    match IndexRune(t, '\n')
    case None => [t]
    case Some(i) =>
      var rest := Lines(t[i + 1..]);
      var r := [t[..i]] + rest;
      assert r[1..] == rest;
      assert t == t[..i] + "\n" + t[i + 1..];
      r
  }

  /** A text without a line break is a single line. */
  lemma LinesSingle(a: string)
    requires '\n' !in a
    ensures Lines(a) == [a]
  {
  }

  /** Two texts without a line break joined give a text without one. */
  lemma NoBreakJoin(a: string, b: string)
    requires '\n' !in a && '\n' !in b
    ensures '\n' !in a + b
  {
    assert forall c :: c in a + b ==> c in a || c in b;
  }

  /** A line, a break, and more text: the line comes first, then the lines of the rest. */
  lemma LinesCons(a: string, b: string)
    requires '\n' !in a
    ensures Lines(a + "\n" + b) == [a] + Lines(b)
  {
    var t := a + "\n" + b;
    assert t[|a|] == '\n';
    var i := IndexRune(t, '\n').value;
    assert t[..|a|] == a;
    assert i == |a|;
    assert t[i + 1..] == b;
  }

  /**
   A text followed by a line break: its lines, then the empty line after the
   break.  This is how Fprintln's text reads back whatever it holds.
   */
  lemma {:induction false} LinesBreakEnd(t: string)
    ensures Lines(t + "\n") == Lines(t) + [""]
    decreases |t|
  {
    match IndexRune(t, '\n')
    case None =>
      LinesCons(t, "");
      LinesSingle("");
    case Some(i) =>
      var head, tail := t[..i], t[i + 1..];
      assert t == head + "\n" + tail;
      assert t + "\n" == head + "\n" + (tail + "\n");
      LinesCons(head, tail);
      LinesCons(head, tail + "\n");
      LinesBreakEnd(tail);
      Seqs.Assoc([head], Lines(tail), [""]);
  }
}
