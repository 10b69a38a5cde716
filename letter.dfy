/** Letters of a sequence and the gap letter that alignments insert (src/letter.rs). */
module Letters {
  import opened Wrappers

  /** A letter is one character. */
  type Letter = char

  /** The letter an alignment shows where one side has no symbol. */
  const Gap: Letter := '-'

  /** The reflexive normalisation: a letter stands for itself. */
  function NormalizeLetter(l: Letter): (r: Letter)
    ensures r == l
  {
    l
  }

  /** An optional letter normalises to the gap when it is absent. */
  function NormalizeOption(o: Option<Letter>): (r: Letter)
    ensures o.None? ==> r == Gap
    ensures o.Some? ==> r == NormalizeLetter(o.value)
  {
    match o
    case None => Gap
    case Some(l) => NormalizeLetter(l)
  }

  /** The checked slice read `s.get(i)`. */
  function Get(s: seq<Letter>, i: nat): (r: Option<Letter>)
    ensures r.Some? <==> i < |s|
    ensures r.Some? ==> r.value == s[i]
  {
    if i < |s| then Some(s[i]) else None
  }

  /** `s.get(i).normalize_letter()`: the letter at `i`, or the gap past the end. */
  function LetterAt(s: seq<Letter>, i: nat): (r: Letter)
    ensures i < |s| ==> r == s[i]
    ensures |s| <= i ==> r == Gap
  {
    NormalizeOption(Get(s, i))
  }

  /** A sequence in which the gap letter does not occur: the inputs an aligner expects. */
  ghost predicate NoGap(s: seq<Letter>) {
    forall k :: 0 <= k < |s| ==> s[k] != Gap
  }

  /** The letters of an aligned sequence with its gaps taken out. */
  function RemoveGaps(s: seq<Letter>): seq<Letter> {
    if |s| == 0 then []
    else RemoveGaps(s[..|s| - 1]) + (if s[|s| - 1] == Gap then [] else [s[|s| - 1]])
  }

  /** Pushing a letter keeps it after gap removal unless it is the gap. */
  lemma RemoveGapsPush(s: seq<Letter>, x: Letter)
    ensures RemoveGaps(s + [x]) == RemoveGaps(s) + (if x == Gap then [] else [x])
  {
    assert (s + [x])[..|s|] == s;
  }

  /** Pushing the next letter of a gap-free sequence extends the slice its gap removal equals. */
  lemma RemoveGapsSlicePush(x: seq<Letter>, s: seq<Letter>, a: nat, b: nat)
    requires NoGap(s) && a < b <= |s| && RemoveGaps(x) == s[a..b - 1]
    ensures RemoveGaps(x + [s[b - 1]]) == s[a..b]
  {
    RemoveGapsPush(x, s[b - 1]);
    assert s[a..b - 1] + [s[b - 1]] == s[a..b];
  }

  /** One traceback step pushes either the next letter of a gap-free sequence or a gap, extending the slice it covers. */
  lemma LettersStep(before: seq<Letter>, after: seq<Letter>, s: seq<Letter>, stop: nat, from: nat, to: nat)
    requires NoGap(s) && stop <= from <= to <= |s| && RemoveGaps(before) == s[stop..from]
    requires (to == from + 1 && after == before + [s[from]]) || (to == from && after == before + [Gap])
    ensures RemoveGaps(after) == s[stop..to]
  {
    if to == from {
      RemoveGapsPush(before, Gap);
    } else {
      RemoveGapsSlicePush(before, s, stop, to);
    }
  }

  /** `a` and `b` have one column each, and no column is a gap against a gap. */
  ghost predicate NoGapColumns(a: seq<Letter>, b: seq<Letter>) {
    |a| == |b| && forall k :: 0 <= k < |a| ==> a[k] != Gap || b[k] != Gap
  }

  /** `a` and `b` align `x` against `y`: removing the gaps gives back `x` and `y`. */
  ghost predicate IsAlignmentOf(a: seq<Letter>, b: seq<Letter>, x: seq<Letter>, y: seq<Letter>) {
    NoGapColumns(a, b) && RemoveGaps(a) == x && RemoveGaps(b) == y
  }

  /**
   * Taking the last column off an alignment of the windows `s[k..i]` and
   * `t[l..j]`: each letter of that column is the last letter of its window,
   * and the rest aligns the windows with those letters dropped.
   */
  lemma AlignmentWindowPop(a: seq<Letter>, b: seq<Letter>, s: seq<Letter>, t: seq<Letter>, k: nat, i: nat, l: nat, j: nat)
    requires k <= i <= |s| && l <= j <= |t| && 0 < |a|
    requires IsAlignmentOf(a, b, s[k..i], t[l..j])
    ensures var n := |a|; var pa, pb, x, y := a[..n - 1], b[..n - 1], a[n - 1], b[n - 1];
      (x != Gap || y != Gap) &&
      (x != Gap ==> k < i && x == s[i - 1]) &&
      (y != Gap ==> l < j && y == t[j - 1]) &&
      (x != Gap && y != Gap ==> IsAlignmentOf(pa, pb, s[k..i - 1], t[l..j - 1])) &&
      (x != Gap && y == Gap ==> IsAlignmentOf(pa, pb, s[k..i - 1], t[l..j])) &&
      (x == Gap ==> IsAlignmentOf(pa, pb, s[k..i], t[l..j - 1]))
  {
    var n := |a|;
    var pa, pb, x, y := a[..n - 1], b[..n - 1], a[n - 1], b[n - 1];
    assert a == pa + [x] && b == pb + [y];
    NoGapColumnsPush(pa, pb, x, y);
    if x != Gap {
      RemoveGapsLastLetterWindow(pa, x, s, k, i);
    } else {
      RemoveGapsLastGap(pa, s[k..i]);
    }
    if y != Gap {
      RemoveGapsLastLetterWindow(pb, y, t, l, j);
    } else {
      RemoveGapsLastGap(pb, t[l..j]);
    }
  }

  /** Appending a column keeps the no-double-gap property exactly when the new column is not a gap against a gap. */
  lemma NoGapColumnsPush(a: seq<Letter>, b: seq<Letter>, x: Letter, y: Letter)
    requires |a| == |b|
    ensures NoGapColumns(a + [x], b + [y]) <==> NoGapColumns(a, b) && (x != Gap || y != Gap)
  {
    if NoGapColumns(a + [x], b + [y]) {
      forall k | 0 <= k < |a|
        ensures a[k] != Gap || b[k] != Gap
      {
        assert (a + [x])[k] == a[k] && (b + [y])[k] == b[k];
      }
      assert (a + [x])[|a|] == x && (b + [y])[|b|] == y;
    }
  }

  /** If `p + [l]` without gaps is the prefix `s[..i]` and `l` is a letter, then `l` is `s[i - 1]` and `p` gives `s[..i - 1]`. */
  lemma RemoveGapsLastLetter(p: seq<Letter>, l: Letter, s: seq<Letter>, i: nat)
    requires i <= |s| && l != Gap && RemoveGaps(p + [l]) == s[..i]
    ensures i > 0 && l == s[i - 1] && RemoveGaps(p) == s[..i - 1]
  {
    RemoveGapsPush(p, l);
    assert |RemoveGaps(p)| + 1 == i;
    assert (RemoveGaps(p) + [l])[..i - 1] == RemoveGaps(p);
    assert s[..i][..i - 1] == s[..i - 1];
  }

  /** The same inside a window: if `p + [l]` without gaps is `s[k..i]`, then `l` is `s[i - 1]` and `p` gives `s[k..i - 1]`. */
  lemma RemoveGapsLastLetterWindow(p: seq<Letter>, l: Letter, s: seq<Letter>, k: nat, i: nat)
    requires k <= i <= |s| && l != Gap && RemoveGaps(p + [l]) == s[k..i]
    ensures k < i && l == s[i - 1] && RemoveGaps(p) == s[k..i - 1]
  {
    var t := s[k..];
    assert t[..i - k] == s[k..i];
    RemoveGapsLastLetter(p, l, t, i - k);
    assert t[i - k - 1] == s[i - 1] && t[..i - k - 1] == s[k..i - 1];
  }

  /** If `p + [Gap]` without gaps is `t`, then so is `p`. */
  lemma RemoveGapsLastGap(p: seq<Letter>, t: seq<Letter>)
    requires RemoveGaps(p + [Gap]) == t
    ensures RemoveGaps(p) == t
  {
    RemoveGapsPush(p, Gap);
    assert RemoveGaps(p) + [] == RemoveGaps(p);
  }
}
