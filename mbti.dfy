/** The letter-wise inversion of a four-letter personality code
    (`invertMBTI`, frontend/src/utils/mbti.js). */
module Mbti {
  import opened Common

  /** The four letter pairs, one per position of a code: E/I, S/N, T/F, J/P. */
  const Pairs: seq<(char, char)> := [('E', 'I'), ('S', 'N'), ('T', 'F'), ('J', 'P')]

  /** The inversion table: each letter of a pair maps to the other one. */
  const Inversions: map<char, char> :=
    map['E' := 'I', 'I' := 'E', 'S' := 'N', 'N' := 'S',
        'T' := 'F', 'F' := 'T', 'J' := 'P', 'P' := 'J']

  /** `inversions[char] || char`: a letter of the table is replaced by its
      partner, any other character passes through. */
  function InvertChar(c: char): char {
    if c in Inversions then Inversions[c] else c
  }

  /** Each letter of a pair becomes the other letter of its pair, and the
      inverse holds too; a character outside the pairs is kept. */
  lemma InvertCharSwapsPairs(c: char)
    ensures forall k :: 0 <= k < |Pairs| ==>
      (c == Pairs[k].0 <==> InvertChar(c) == Pairs[k].1) && (c == Pairs[k].1 <==> InvertChar(c) == Pairs[k].0)
    ensures (forall k :: 0 <= k < |Pairs| ==> c != Pairs[k].0 && c != Pairs[k].1) ==> InvertChar(c) == c
  {
    if c in Inversions {
      assert c == Pairs[0].0 || c == Pairs[0].1 || c == Pairs[1].0 || c == Pairs[1].1
          || c == Pairs[2].0 || c == Pairs[2].1 || c == Pairs[3].0 || c == Pairs[3].1;
    }
  }

  /** `split('').map(...).join('')` on a string. */
  function InvertCode(s: string): (r: string)
    ensures |r| == |s|
  {
    if s == [] then [] else [InvertChar(s[0])] + InvertCode(s[1..])
  }

  /** `invertMBTI`: a falsy or non-string argument (modelled as `None` or the
      empty string) is returned unchanged; a string is inverted letter by letter. */
  function InvertMBTI(personality: Option<string>): (r: Option<string>)
    ensures !Truthy(personality) ==> r == personality
    ensures Truthy(personality) ==> r.Some? && |r.value| == |personality.value|
  {
    if !Truthy(personality) then personality else Some(InvertCode(personality.value))
  }

  /** A code made of one letter from each pair, in pair order. */
  predicate IsCode(s: string) {
    |s| == 4 && forall k :: 0 <= k < 4 ==> s[k] == Pairs[k].0 || s[k] == Pairs[k].1
  }

  lemma InvertCharInvolution(c: char)
    ensures InvertChar(InvertChar(c)) == c
  {
  }

  /** Position k of the inversion is the inversion of position k. */
  lemma {:induction false} InvertCodeAt(s: string, k: nat)
    requires k < |s|
    ensures InvertCode(s)[k] == InvertChar(s[k])
  {
    if k > 0 {
      InvertCodeAt(s[1..], k - 1);
    }
  }

  /** Inverting twice gives back the input, for every string. */
  lemma {:induction false} InvertCodeInvolution(s: string)
    ensures InvertCode(InvertCode(s)) == s
  {
    if s != [] {
      InvertCodeInvolution(s[1..]);
      InvertCharInvolution(s[0]);
      assert InvertCode(s) == [InvertChar(s[0])] + InvertCode(s[1..]);
    }
  }

  lemma InvertMBTIInvolution(personality: Option<string>)
    ensures InvertMBTI(InvertMBTI(personality)) == personality
  {
    if Truthy(personality) {
      InvertCodeInvolution(personality.value);
    }
  }

  /** Every letter of a code is swapped with the other letter of its pair,
      so the inversion of a code is a code. */
  lemma InvertCodeOfCode(s: string)
    requires IsCode(s)
    ensures IsCode(InvertCode(s))
    ensures forall k :: 0 <= k < 4 ==>
      (s[k] == Pairs[k].0 <==> InvertCode(s)[k] == Pairs[k].1)
  {
    forall k | 0 <= k < 4
      ensures InvertCode(s)[k] == InvertChar(s[k])
    {
      InvertCodeAt(s, k);
      InvertCharSwapsPairs(s[k]);
    }
  }

  /** The inversion maps the sixteen codes onto themselves one to one. */
  lemma InvertCodeBijectiveOnCodes(s: string, t: string)
    requires IsCode(s) && IsCode(t)
    ensures IsCode(InvertCode(s))
    ensures InvertCode(s) == InvertCode(t) ==> s == t
    ensures exists u :: IsCode(u) && InvertCode(u) == s
  {
    InvertCodeOfCode(s);
    InvertCodeOfCode(InvertCode(s));
    InvertCodeInvolution(s);
    InvertCodeInvolution(t);
    assert IsCode(InvertCode(s)) && InvertCode(InvertCode(s)) == s;
  }

  /** The example of the source's doc comment: INTJ inverts to ESFP and
      ENFP to ISTJ. */
  lemma DocExamples()
    ensures InvertCode("INTJ") == "ESFP"
    ensures InvertCode("ENFP") == "ISTJ"
  {
  }
}
