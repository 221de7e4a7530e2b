/**
 * The JavaScript string operations the notification pipeline relies on,
 * written out: `split` on one character, `replace` of the first occurrence
 * of a substring, and the concatenation of the body's chunks.
 */
module Text {
  import opened Wrappers

  /** `s.split(sep)` for a one-character separator: always at least one piece. */
  function Split(s: string, sep: char): (r: seq<string>)
    ensures |r| >= 1
    decreases |s|
  {
    if s == [] then [""]
    else
      var rest := Split(s[1..], sep);
      if s[0] == sep then [""] + rest
      else [[s[0]] + rest[0]] + rest[1..]
  }

  /** `pieces.join(sep)`, the inverse of `Split`. */
  function Join(pieces: seq<string>, sep: char): string
    requires |pieces| >= 1
    decreases |pieces|
  {
    if |pieces| == 1 then pieces[0] else pieces[0] + [sep] + Join(pieces[1..], sep)
  }

  /** Splitting and joining again gives back the original string. */
  lemma {:induction false} JoinSplit(s: string, sep: char)
    ensures Join(Split(s, sep), sep) == s
    decreases |s|
  {
    if s != [] {
      var rest := Split(s[1..], sep);
      JoinSplit(s[1..], sep);
      if s[0] != sep {
        if |rest| > 1 {
          assert Join(rest, sep) == rest[0] + [sep] + Join(rest[1..], sep);
          assert ([[s[0]] + rest[0]] + rest[1..])[1..] == rest[1..];
        }
      }
    }
  }

  /** No piece of a split contains the separator. */
  lemma {:induction false} SplitPiecesFree(s: string, sep: char)
    ensures forall i :: 0 <= i < |Split(s, sep)| ==> sep !in Split(s, sep)[i]
    decreases |s|
  {
    if s != [] {
      SplitPiecesFree(s[1..], sep);
      var rest := Split(s[1..], sep);
      if s[0] != sep {
        var r := [[s[0]] + rest[0]] + rest[1..];
        forall i | 0 <= i < |r| ensures sep !in r[i] {
          if i > 0 { assert r[i] == rest[i]; }
        }
      }
    }
  }

  /** A string without the separator splits into itself. */
  lemma {:induction false} SplitNoSeparator(a: string, sep: char)
    requires sep !in a
    ensures Split(a, sep) == [a]
    decreases |a|
  {
    if a != [] {
      SplitNoSeparator(a[1..], sep);
      assert [a[0]] + a[1..] == a;
    }
  }

  /** Splitting at the first separator peels off the separator-free text before it. */
  lemma {:induction false} SplitAtFirst(a: string, sep: char, b: string)
    requires sep !in a
    ensures Split(a + [sep] + b, sep) == [a] + Split(b, sep)
    decreases |a|
  {
    var s := a + [sep] + b;
    if a == [] {
      assert s[1..] == b;
    } else {
      assert s[1..] == a[1..] + [sep] + b;
      SplitAtFirst(a[1..], sep, b);
      assert [a[0]] + a[1..] == a;
    }
  }

  /** A split yields a second piece exactly when the separator occurs. */
  lemma {:induction false} SplitCount(s: string, sep: char)
    ensures |Split(s, sep)| >= 2 <==> sep in s
    decreases |s|
  {
    if s != [] {
      SplitCount(s[1..], sep);
      assert s == [s[0]] + s[1..];
    }
  }

  /**
   * The second piece of a split, when there is one, is the text between the
   * first and the second separator: the string is a separator-free prefix,
   * the separator, the piece, and then either nothing or another separator.
   */
  lemma SecondPiece(s: string, sep: char)
    requires |Split(s, sep)| >= 2
    ensures var p := Split(s, sep);
      sep !in p[0] && sep !in p[1] &&
      (s == p[0] + [sep] + p[1] || (|p| > 2 && s == p[0] + [sep] + p[1] + [sep] + Join(p[2..], sep)))
  {
    var p := Split(s, sep);
    SplitPiecesFree(s, sep);
    JoinSplit(s, sep);
    assert Join(p, sep) == p[0] + [sep] + Join(p[1..], sep);
    if |p| > 2 {
      assert Join(p[1..], sep) == p[1] + [sep] + Join(p[2..], sep);
    }
  }

  /** True when `pat` occurs in `s` at position `i`. */
  predicate OccursAt(s: string, pat: string, i: nat) {
    i + |pat| <= |s| && s[i..i + |pat|] == pat
  }

  /** `s.indexOf(pat, from)`: the first position at or after `from` where `pat` occurs. */
  function IndexOf(s: string, pat: string, from: nat := 0): (r: Option<nat>)
    ensures r.Some? ==> from <= r.value && OccursAt(s, pat, r.value)
    ensures forall j :: from <= j && (r.None? || j < r.value) ==> !OccursAt(s, pat, j)
    decreases |s| - from
  {
    if from + |pat| > |s| then None
    else if s[from..from + |pat|] == pat then Some(from)
    else IndexOf(s, pat, from + 1)
  }

  /** `pat` occurs at `i` and nowhere before it. */
  predicate FirstAt(s: string, pat: string, i: nat) {
    OccursAt(s, pat, i) && forall k: nat :: k < i ==> !OccursAt(s, pat, k)
  }

  /**
   * `s.replace(pat, rep)` with a string pattern: a string without `pat` is left
   * alone; otherwise the string is cut at the first occurrence of `pat`, that
   * occurrence is swapped for `rep` and both sides are kept.
   */
  function ReplaceFirst(s: string, pat: string, rep: string): (r: string)
    ensures (forall j: nat :: !OccursAt(s, pat, j)) ==> r == s
    ensures forall i: nat :: FirstAt(s, pat, i) ==>
      s == s[..i] + pat + s[i + |pat|..] && r == s[..i] + rep + s[i + |pat|..]
  {
    match IndexOf(s, pat)
    case None => s
    case Some(i) =>
      assert s == s[..i] + s[i..i + |pat|] + s[i + |pat|..];
      s[..i] + rep + s[i + |pat|..]
  }

  /** The text received so far: the chunks in arrival order, concatenated. */
  function Concat(chunks: seq<string>): (r: string)
    ensures forall i :: 0 <= i < |chunks| ==> |chunks[i]| <= |r|
    decreases |chunks|
  {
    if chunks == [] then "" else Concat(chunks[..|chunks| - 1]) + chunks[|chunks| - 1]
  }

  /** Appending one more chunk appends its text. */
  lemma ConcatSnoc(chunks: seq<string>, i: nat)
    requires i < |chunks|
    ensures Concat(chunks[..i + 1]) == Concat(chunks[..i]) + chunks[i]
  {
    assert chunks[..i + 1][..i] == chunks[..i];
  }

  /** The text of a prefix of the chunks is never longer than the text of all of them. */
  lemma {:induction false} ConcatPrefixShorter(chunks: seq<string>, i: nat)
    requires i <= |chunks|
    ensures |Concat(chunks[..i])| <= |Concat(chunks)|
    decreases |chunks| - i
  {
    if i < |chunks| {
      ConcatSnoc(chunks, i);
      ConcatPrefixShorter(chunks, i + 1);
    } else {
      assert chunks[..i] == chunks;
    }
  }
}
