/** The string operations the source relies on, for a one-character
    separator: `split`, `join` and `endsWith`. */
module Text {

  predicate EndsWith(s: string, c: char) {
    |s| > 0 && s[|s| - 1] == c
  }

  /** No piece holds the separator. */
  predicate SeparatorFree(parts: seq<string>, sep: char) {
    forall i :: 0 <= i < |parts| ==> sep !in parts[i]
  }

  /** `s.split(sep)`: the maximal pieces between separators, at least one
      piece even for the empty string. */
  function Split(s: string, sep: char): (r: seq<string>)
    ensures |r| >= 1
    ensures SeparatorFree(r, sep)
  {
    if |s| == 0 then [""]
    else
      var rest := Split(s[1..], sep);
      if s[0] == sep then [""] + rest
      else [[s[0]] + rest[0]] + rest[1..]
  }

  /** `parts.join(sep)`. */
  function Join(parts: seq<string>, sep: char): string {
    if |parts| == 0 then ""
    else if |parts| == 1 then parts[0]
    else parts[0] + [sep] + Join(parts[1..], sep)
  }

  /** Joining the pieces restores the split string. */
  lemma {:induction false} JoinSplit(s: string, sep: char)
    ensures Join(Split(s, sep), sep) == s
  {
    if |s| > 0 {
      var rest := Split(s[1..], sep);
      JoinSplit(s[1..], sep);
      assert s == [s[0]] + s[1..];
      if s[0] == sep {
        assert ([""] + rest)[1..] == rest;
      } else {
        var r := [[s[0]] + rest[0]] + rest[1..];
        if |rest| > 1 {
          assert r[1..] == rest[1..];
        }
      }
    }
  }

  lemma {:induction false} SplitPiece(p: string, sep: char)
    requires sep !in p
    ensures Split(p, sep) == [p]
  {
    if |p| > 0 {
      SplitPiece(p[1..], sep);
      assert p == [p[0]] + p[1..];
    }
  }

  lemma {:induction false} SplitCons(p: string, t: string, sep: char)
    requires sep !in p
    ensures Split(p + [sep] + t, sep) == [p] + Split(t, sep)
  {
    var s := p + [sep] + t;
    if |p| == 0 {
      assert s[1..] == t;
    } else {
      assert s[1..] == p[1..] + [sep] + t;
      SplitCons(p[1..], t, sep);
      assert p == [p[0]] + p[1..];
    }
  }

  /** Splitting a join of separator-free pieces gives the pieces back. */
  lemma {:induction false} SplitJoin(parts: seq<string>, sep: char)
    requires |parts| >= 1 && SeparatorFree(parts, sep)
    ensures Split(Join(parts, sep), sep) == parts
  {
    if |parts| == 1 {
      SplitPiece(parts[0], sep);
    } else {
      SplitJoin(parts[1..], sep);
      SplitCons(parts[0], Join(parts[1..], sep), sep);
      assert parts == [parts[0]] + parts[1..];
    }
  }

  /** Peeling the last piece off a join. */
  lemma {:induction false} JoinSnoc(parts: seq<string>, sep: char)
    requires |parts| >= 2
    ensures Join(parts, sep) == Join(parts[..|parts| - 1], sep) + [sep] + parts[|parts| - 1]
  {
    if |parts| > 2 {
      JoinSnoc(parts[1..], sep);
      assert parts[1..][..|parts| - 2] == parts[..|parts| - 1][1..];
    }
  }

  /** A string holds the separator exactly when it splits into two or more pieces. */
  lemma SplitCount(s: string, sep: char)
    ensures sep in s <==> |Split(s, sep)| >= 2
  {
    var parts := Split(s, sep);
    JoinSplit(s, sep);
    if |parts| >= 2 {
      JoinSnoc(parts, sep);
      var pre := Join(parts[..|parts| - 1], sep);
      assert s[|pre|] == sep;
    }
  }

  /** `last` is the text after the last `sep` of `s`, or all of `s` when
      it holds no `sep`. */
  predicate IsLastPiece(s: string, last: string, sep: char) {
    && |last| <= |s| && s[|s| - |last|..] == last
    && (|last| == |s| <==> sep !in s)
    && (|last| < |s| ==> s[|s| - |last| - 1] == sep)
  }

  /** The last piece of a split is the text after the last separator, or
      the whole string when it holds no separator. */
  lemma SplitLast(s: string, sep: char)
    ensures IsLastPiece(s, Split(s, sep)[|Split(s, sep)| - 1], sep)
  {
    var parts := Split(s, sep);
    var last := parts[|parts| - 1];
    JoinSplit(s, sep);
    LastOfJoin(parts, sep, s);
    assert IsLastPiece(s, last, sep);
  }

  /** The same for any separator-free pieces joined into `s`. */
  lemma LastOfJoin(parts: seq<string>, sep: char, s: string)
    requires |parts| >= 1 && Join(parts, sep) == s
    requires SeparatorFree(parts, sep)
    ensures IsLastPiece(s, parts[|parts| - 1], sep)
  {
    var last := parts[|parts| - 1];
    if |parts| >= 2 {
      JoinSnoc(parts, sep);
      SeparatedSuffix(s, Join(parts[..|parts| - 1], sep), sep, last);
    } else {
      assert s == last;
    }
  }

  /** The suffix facts of `s == pre + [sep] + last`. */
  lemma SeparatedSuffix(s: string, pre: string, sep: char, last: string)
    requires s == pre + [sep] + last
    ensures |last| < |s| && s[|s| - |last|..] == last && s[|s| - |last| - 1] == sep
    ensures sep in s
  {
    assert s[|pre|] == sep;
  }

  /** `s` with every occurrence of `c` removed. */
  function Without(s: string, c: char): (r: string)
    ensures c !in r
    ensures forall d :: d != c ==> multiset(r)[d] == multiset(s)[d]
    ensures c !in s ==> r == s
  {
    if |s| == 0 then ""
    else
      assert s == [s[0]] + s[1..];
      (if s[0] == c then "" else [s[0]]) + Without(s[1..], c)
  }
  /** Removing a character commutes with concatenation, so the kept
      characters stay in their order. */
  lemma {:induction false} WithoutDistributes(a: string, b: string, c: char)
    ensures Without(a + b, c) == Without(a, c) + Without(b, c)
  {
    if |a| > 0 {
      assert (a + b)[1..] == a[1..] + b;
      WithoutDistributes(a[1..], b, c);
    } else {
      assert a + b == b;
    }
  }

  /** One character is dropped when it is `c` and kept otherwise. */
  lemma WithoutSingle(d: char, c: char)
    ensures Without([d], c) == if d == c then "" else [d]
  {
    assert [d][1..] == "";
  }
}
