/** A global match of a regular expression that is an alternation of
    literal words (`/a|b|c/g` in JavaScript): which words it returns, where
    it finds them, and when it finds every occurrence. */
module Alternation {
  import opened Common

  /** `w` occurs in `s` at index `i`. */
  predicate OccursAt(s: string, w: string, i: int) {
    0 <= i && i + |w| <= |s| && s[i..i + |w|] == w
  }

  /** No alternative is empty. */
  predicate NonEmptyWords(ws: seq<string>) {
    forall w :: w in ws ==> |w| > 0
  }

  /** Character `j` of `k` is the first character of `w`. */
  predicate StartsAt(k: string, w: string, j: int) {
    0 <= j < |k| && |w| > 0 && k[j] == w[0]
  }

  /** What the scan needs for completeness: no alternative is empty, no two
      start with the same character, and no alternative has another's first
      character anywhere after its own start. */
  predicate Unambiguous(ws: seq<string>) {
    NonEmptyWords(ws) &&
    (forall k, w {:trigger StartsAt(k, w, 0)} :: k in ws && w in ws && StartsAt(k, w, 0) ==> k == w) &&
    (forall k, w, j {:trigger StartsAt(k, w, j)} :: k in ws && w in ws && 1 <= j < |k| ==> !StartsAt(k, w, j))
  }

  /** The first alternative of `ws`, in pattern order, that matches at
      index `i` of `s`. */
  function FirstAt(ws: seq<string>, s: string, i: nat): (r: Option<string>)
    ensures r.Some? ==> r.value in ws && OccursAt(s, r.value, i)
    ensures r.None? ==> forall w :: w in ws ==> !OccursAt(s, w, i)
  {
    if ws == [] then None
    else if OccursAt(s, ws[0], i) then Some(ws[0])
    else FirstAt(ws[1..], s, i)
  }

  /** A global match of the alternation of `ws` from index `i`: scanning
      left to right, an alternative matching at the current position is
      taken and skipped over; otherwise the scan moves one character on. */
  function ScanFrom(ws: seq<string>, s: string, i: nat): (r: seq<string>)
    requires NonEmptyWords(ws) && i <= |s|
    ensures forall w :: w in r ==> w in ws
    decreases |s| - i
  {
    if i == |s| then []
    else match FirstAt(ws, s, i)
      case Some(w) => [w] + ScanFrom(ws, s, i + |w|)
      case None => ScanFrom(ws, s, i + 1)
  }

  /** Where the scan from index `i` takes its matches. */
  function MatchesFrom(ws: seq<string>, s: string, i: nat): (p: seq<nat>)
    requires NonEmptyWords(ws) && i <= |s|
    ensures forall k :: 0 <= k < |p| ==> i <= p[k] < |s|
    decreases |s| - i
  {
    if i == |s| then []
    else match FirstAt(ws, s, i)
      case Some(w) => [i] + MatchesFrom(ws, s, i + |w|)
      case None => MatchesFrom(ws, s, i + 1)
  }

  /** The scan records one position per word it returns. */
  lemma {:induction false} MatchesCount(ws: seq<string>, s: string, i: nat)
    requires NonEmptyWords(ws) && i <= |s|
    ensures |MatchesFrom(ws, s, i)| == |ScanFrom(ws, s, i)|
    decreases |s| - i
  {
    if i < |s| {
      MatchesCount(ws, s, Resume(ws, s, i));
    }
  }

  /** The k-th word returned occurs at the k-th recorded position. */
  lemma {:induction false} MatchesOccur(ws: seq<string>, s: string, i: nat, k: nat)
    requires NonEmptyWords(ws) && i <= |s|
    requires k < |MatchesFrom(ws, s, i)| && k < |ScanFrom(ws, s, i)|
    ensures OccursAt(s, ScanFrom(ws, s, i)[k], MatchesFrom(ws, s, i)[k])
    decreases |s| - i
  {
    var f := FirstAt(ws, s, i);
    if f.Some? && k == 0 {
    } else {
      var next := if f.Some? then i + |f.value| else i + 1;
      var k' := if f.Some? then k - 1 else k;
      assert ScanFrom(ws, s, i)[k] == ScanFrom(ws, s, next)[k'];
      assert MatchesFrom(ws, s, i)[k] == MatchesFrom(ws, s, next)[k'];
      MatchesOccur(ws, s, next, k');
    }
  }

  /** Matches do not overlap: each one ends before the next one starts. */
  lemma {:induction false} MatchesOrdered(ws: seq<string>, s: string, i: nat, j: nat, k: nat)
    requires NonEmptyWords(ws) && i <= |s|
    requires j < k < |MatchesFrom(ws, s, i)| && k < |ScanFrom(ws, s, i)|
    ensures MatchesFrom(ws, s, i)[j] + |ScanFrom(ws, s, i)[j]| <= MatchesFrom(ws, s, i)[k]
    decreases |s| - i
  {
    var f := FirstAt(ws, s, i);
    var next := if f.Some? then i + |f.value| else i + 1;
    if f.Some? {
      assert MatchesFrom(ws, s, i)[k] == MatchesFrom(ws, s, next)[k - 1];
      if j > 0 {
        assert MatchesFrom(ws, s, i)[j] == MatchesFrom(ws, s, next)[j - 1];
        assert ScanFrom(ws, s, i)[j] == ScanFrom(ws, s, next)[j - 1];
        MatchesOrdered(ws, s, next, j - 1, k - 1);
      }
    } else {
      MatchesOrdered(ws, s, next, j, k);
    }
  }

  /** With an unambiguous pattern, the word occurring at `i` is the one
      the scan takes there, whatever its place in the pattern. */
  lemma FirstAtFinds(ws: seq<string>, s: string, i: nat, w: string)
    requires Unambiguous(ws) && w in ws && OccursAt(s, w, i)
    ensures FirstAt(ws, s, i) == Some(w)
  {
    var f := FirstAt(ws, s, i);
    assert f.value[0] == s[i] == w[0];
    assert StartsAt(f.value, w, 0);
  }

  /** With an unambiguous pattern, no word occurs strictly inside a match. */
  lemma NotInside(ws: seq<string>, s: string, i: nat, w: string, p: nat)
    requires Unambiguous(ws) && w in ws
    requires FirstAt(ws, s, i).Some? && i < p < i + |FirstAt(ws, s, i).value|
    ensures !OccursAt(s, w, p)
  {
    var kw := FirstAt(ws, s, i).value;
    if OccursAt(s, w, p) {
      assert kw[p - i] == s[p] == w[0];
      assert StartsAt(kw, w, p - i);
    }
  }

  /** Where the scan resumes after position `i`. */
  function Resume(ws: seq<string>, s: string, i: nat): nat {
    match FirstAt(ws, s, i)
    case Some(w) => i + |w|
    case None => i + 1
  }

  /** A match of the scan resumed after `i` is a match of the scan at `i`,
      one place later when the scan takes a match at `i`. */
  lemma ResumeIndex(ws: seq<string>, s: string, i: nat, k: nat)
    requires NonEmptyWords(ws) && i < |s|
    requires Resume(ws, s, i) <= |s|
    requires k < |ScanFrom(ws, s, Resume(ws, s, i))| && k < |MatchesFrom(ws, s, Resume(ws, s, i))|
    ensures var h := if FirstAt(ws, s, i).Some? then 1 else 0;
      k + h < |ScanFrom(ws, s, i)| && k + h < |MatchesFrom(ws, s, i)| &&
      ScanFrom(ws, s, i)[k + h] == ScanFrom(ws, s, Resume(ws, s, i))[k] &&
      MatchesFrom(ws, s, i)[k + h] == MatchesFrom(ws, s, Resume(ws, s, i))[k]
  {
  }

  /** With an unambiguous pattern, every occurrence of a word at or after
      `i` is one of the matches of the scan from `i`. */
  lemma {:induction false} MatchesComplete(ws: seq<string>, s: string, i: nat, w: string, p: nat)
    requires Unambiguous(ws) && w in ws && i <= p && OccursAt(s, w, p)
    ensures exists k ::
      0 <= k < |ScanFrom(ws, s, i)| && k < |MatchesFrom(ws, s, i)| &&
      MatchesFrom(ws, s, i)[k] == p && ScanFrom(ws, s, i)[k] == w
    decreases |s| - i
  {
    var f := FirstAt(ws, s, i);
    if p == i {
      MatchesCount(ws, s, i);
      FirstAtFinds(ws, s, i, w);
      assert ScanFrom(ws, s, i)[0] == w && MatchesFrom(ws, s, i)[0] == p;
    } else {
      if f.Some? && p < i + |f.value| {
        NotInside(ws, s, i, w, p);
        assert false;
      }
      var next := Resume(ws, s, i);
      MatchesComplete(ws, s, next, w, p);
      var k :| 0 <= k < |ScanFrom(ws, s, next)| && k < |MatchesFrom(ws, s, next)| &&
        MatchesFrom(ws, s, next)[k] == p && ScanFrom(ws, s, next)[k] == w;
      ResumeIndex(ws, s, i, k);
    }
  }
}
