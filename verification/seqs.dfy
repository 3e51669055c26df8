/** First-occurrence deduplication: the order in which new keys show up in a stream. */
module Seqs {

  /** No element appears twice. */
  predicate Distinct<T(==)>(s: seq<T>) {
    forall i, j :: 0 <= i < j < |s| ==> s[i] != s[j]
  }

  /** The set of elements of a sequence. */
  function Elems<T>(s: seq<T>): set<T> {
    set x | x in s
  }

  /**
   The distinct elements of `xs`, each at the place it first occurs: the
   order in which a reader scanning `xs` from the left meets new values.
   */
  function Firsts<T(==)>(xs: seq<T>): (r: seq<T>)
    ensures Elems(r) == Elems(xs)
    ensures Distinct(r)
    ensures |r| <= |xs|
  {
    if |xs| == 0 then []
    else
      var p := Firsts(xs[..|xs| - 1]);
      var x := xs[|xs| - 1];
      assert Elems(xs) == Elems(xs[..|xs| - 1]) + {x} by {
        assert xs == xs[..|xs| - 1] + [x];
      }
      if x in p then p else p + [x]
  }

  /** Concatenation is associative; stated once so that callers need not re-derive it. */
  lemma Assoc<T>(a: seq<T>, b: seq<T>, c: seq<T>)
    ensures a + (b + c) == a + b + c
  {
  }

  /** Short displays built by appending one element at a time. */
  lemma SnocDisplays<T>(a: T, b: T, c: T)
    ensures [] + [a] == [a] && [a] + [b] == [a, b] && [a, b] + [c] == [a, b, c] && [b] + [c] == [b, c]
  {
  }

  /** Six one-element sequences, prepended one by one, give the six-element display. */
  lemma SixDisplay<T>(a: T, b: T, c: T, d: T, e: T, f: T)
    ensures [a] + ([b] + ([c] + ([d] + ([e] + [f])))) == [a, b, c, d, e, f]
  {
  }

  /** The four-part regrouping a section's close, head and body need against the trace before them. */
  lemma ConcatAssoc<T>(a: seq<T>, b: seq<T>, c: seq<T>, d: seq<T>)
    ensures a + (b + c) + d == a + (b + (c + d))
  {
  }

  /** The head and tail of a concatenation whose left part is not empty. */
  lemma ConsAppend<T>(a: seq<T>, b: seq<T>)
    requires |a| > 0
    ensures (a + b)[0] == a[0] && (a + b)[1..] == a[1..] + b
  {
  }

  /** A non-empty sequence is its first element followed by the rest. */
  lemma ConsSplit<T>(s: seq<T>)
    requires |s| > 0
    ensures s == [s[0]] + s[1..]
  {
  }

  /** A non-empty sequence is its front followed by its last element. */
  lemma SnocSplit<T>(s: seq<T>)
    requires |s| > 0
    ensures s == s[..|s| - 1] + [s[|s| - 1]]
  {
  }

  /** Moving the first element of `rest` over to `done`. */
  lemma ShiftFirst<T>(done: seq<T>, rest: seq<T>)
    requires |rest| > 0
    ensures done + [rest[0]] + rest[1..] == done + rest
  {
    assert rest == [rest[0]] + rest[1..];
    Assoc(done, [rest[0]], rest[1..]);
  }

  /** Only the empty sequence has no elements. */
  lemma ElemsEmpty<T>(s: seq<T>)
    ensures Elems(s) == {} <==> s == []
  {
    if s != [] {
      assert s[0] in Elems(s);
    }
  }

  /** One element more. */
  lemma ElemsSnoc<T>(xs: seq<T>, x: T)
    ensures Elems(xs + [x]) == Elems(xs) + {x}
  {
    assert forall y :: y in xs + [x] <==> y in xs || y == x;
  }

  /**
   Extending a stream never reorders or forgets the values already met: the
   first-occurrence order of a prefix is a prefix of the whole stream's.
   */
  lemma {:induction false} FirstsPrefix<T>(xs: seq<T>, ys: seq<T>)
    ensures |Firsts(xs)| <= |Firsts(xs + ys)|
    ensures Firsts(xs + ys)[..|Firsts(xs)|] == Firsts(xs)
    decreases |ys|
  {
    if |ys| > 0 {
      var zs := xs + ys[..|ys| - 1];
      FirstsPrefix(xs, ys[..|ys| - 1]);
      assert (xs + ys)[..|xs + ys| - 1] == zs;
      var p := Firsts(zs);
      assert Firsts(xs + ys) == p || Firsts(xs + ys) == p + [ys[|ys| - 1]];
      assert (p + [ys[|ys| - 1]])[..|p|] == p;
    } else {
      assert xs + ys == xs;
    }
  }

  /** One more value: the first-occurrence order grows only when the value is new. */
  lemma FirstsSnoc<T>(xs: seq<T>, x: T)
    ensures x in xs ==> Firsts(xs + [x]) == Firsts(xs)
    ensures x !in xs ==> Firsts(xs + [x]) == Firsts(xs) + [x]
  {
    assert (xs + [x])[..|xs|] == xs;
    assert (xs + [x])[|xs|] == x;
    assert x in Firsts(xs) <==> x in Elems(Firsts(xs));
  }

  /** A duplicate-free sequence has as many elements as its set of elements. */
  lemma {:induction false} DistinctCard<T>(s: seq<T>)
    requires Distinct(s)
    ensures |Elems(s)| == |s|
  {
    if |s| > 0 {
      var t := s[..|s| - 1];
      DistinctCard(t);
      assert s[|s| - 1] !in t;
      assert Elems(s) == Elems(t) + {s[|s| - 1]};
    }
  }

  /** The number of distinct values in a stream is the length of its first-occurrence order. */
  lemma FirstsCard<T>(xs: seq<T>)
    ensures |Firsts(xs)| == |Elems(xs)|
  {
    DistinctCard(Firsts(xs));
  }

  /** A value that comes back after another one is not listed twice. */
  lemma FirstsReturn<T>(a: T, b: T)
    requires a != b
    ensures Firsts([a, b, a]) == [a, b]
    ensures Elems([a, b, a]) == {a, b}
  {
    assert [a, b, a][..2] == [a, b];
    assert [a, b][..1] == [a];
    assert [a][..0] == [];
    assert Firsts([a, b]) == [a, b];
  }
}
