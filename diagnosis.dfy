/** The twelve-question Likert diagnosis: each group of three answers
    picks one letter of the personality code by a sum threshold. */
module DiagnosisScreen {
  import Mbti

  const QuestionCount: nat := 12

  /** The initial answers: twelve 3s, the neutral middle of 1..5. */
  function DefaultAnswers(): (a: seq<int>)
    ensures |a| == QuestionCount && forall i :: 0 <= i < |a| ==> a[i] == 3
  {
    seq(12, _ => 3)
  }

  /** The sum of `a[s..e]`, indices past the end contributing nothing, as
      `slice` followed by `reduce` does. */
  function Sum(a: seq<int>, s: nat, e: nat): int
    decreases e - s
  {
    if e <= s || s >= |a| then 0 else a[s] + Sum(a, s + 1, e)
  }

  /** Letter `k` of the code, from answers `3k..3k+2`: a sum above 9
      gives I, S, T or J; otherwise E, N, F or P. */
  function Letter(a: seq<int>, k: nat): char
    requires k < 4
  {
    var yes := Sum(a, 3 * k, 3 * k + 3) > 9;
    if k == 0 then (if yes then 'I' else 'E')
    else if k == 1 then (if yes then 'S' else 'N')
    else if k == 2 then (if yes then 'T' else 'F')
    else (if yes then 'J' else 'P')
  }

  /** `handleSubmit`'s type code. */
  function TypeCode(a: seq<int>): (code: string)
    ensures |code| == 4
    ensures Mbti.IsCode(code)
    ensures forall k :: 0 <= k < 4 ==> code[k] == Letter(a, k)
  {
    [Letter(a, 0), Letter(a, 1), Letter(a, 2), Letter(a, 3)]
  }

  /** The sum of a range depends only on the answers inside it. */
  lemma {:induction false} SumLocal(a: seq<int>, b: seq<int>, s: nat, e: nat)
    requires s <= e <= |a| && e <= |b| && a[s..e] == b[s..e]
    ensures Sum(a, s, e) == Sum(b, s, e)
    decreases e - s
  {
    if s < e {
      assert a[s] == a[s..e][0] == b[s..e][0] == b[s];
      assert a[s + 1..e] == a[s..e][1..];
      SumLocal(a, b, s + 1, e);
    }
  }

  /** Letter `k` depends only on answers `3k`, `3k+1` and `3k+2`. */
  lemma LetterLocal(a: seq<int>, b: seq<int>, k: nat)
    requires k < 4 && |a| == QuestionCount && |b| == QuestionCount
    requires a[3 * k..3 * k + 3] == b[3 * k..3 * k + 3]
    ensures TypeCode(a)[k] == TypeCode(b)[k]
  {
    SumLocal(a, b, 3 * k, 3 * k + 3);
  }

  /** Twelve answers, each one of the five button values. */
  predicate InRange(a: seq<int>) {
    |a| == QuestionCount && forall i :: 0 <= i < |a| ==> 1 <= a[i] <= 5
  }

  /** The sum of one group of three, written out. */
  lemma GroupSum(a: seq<int>, k: nat)
    requires k < 4 && |a| == QuestionCount
    ensures Sum(a, 3 * k, 3 * k + 3) == a[3 * k] + a[3 * k + 1] + a[3 * k + 2]
  {
    var s := 3 * k;
    assert Sum(a, s + 2, s + 3) == a[s + 2] + Sum(a, s + 3, s + 3);
    assert Sum(a, s + 1, s + 3) == a[s + 1] + Sum(a, s + 2, s + 3);
  }

  /** The letter is the second of its pair (I, S, T, J for the four groups
      in `Mbti.Pairs` order: I is `Pairs[0].1`, the others `.0`) exactly when
      the group leans to "yes", that is averages above 3. */
  lemma LetterThreshold(a: seq<int>, k: nat)
    requires k < 4 && |a| == QuestionCount
    ensures TypeCode(a)[k] == (if k == 0 then Mbti.Pairs[0].1 else Mbti.Pairs[k].0) <==>
      a[3 * k] + a[3 * k + 1] + a[3 * k + 2] > 9
  {
    GroupSum(a, k);
  }

  /** The untouched form gives ENFP; all 5s give ISTJ; all 1s give ENFP. */
  lemma Examples()
    ensures TypeCode(DefaultAnswers()) == "ENFP"
    ensures TypeCode(seq(12, _ => 5)) == "ISTJ"
    ensures TypeCode(seq(12, _ => 1)) == "ENFP"
  {
    var d, h, l := DefaultAnswers(), seq(12, _ => 5), seq(12, _ => 1);
    GroupSum(d, 0); GroupSum(d, 1); GroupSum(d, 2); GroupSum(d, 3);
    GroupSum(h, 0); GroupSum(h, 1); GroupSum(h, 2); GroupSum(h, 3);
    GroupSum(l, 0); GroupSum(l, 1); GroupSum(l, 2); GroupSum(l, 3);
  }

  /** The diagnosis form's state. */
  class Diagnosis {
    var answers: seq<int>

    ghost predicate Valid()
      reads this
    {
      InRange(answers)
    }

    constructor()
      ensures Valid() && answers == DefaultAnswers()
    {
      answers := DefaultAnswers();
    }

    /** A click on button `value` of question `i`: that answer only is
        replaced. The buttons offer 1..5 for the twelve questions. */
    method HandleAnswer(i: nat, value: int)
      requires Valid() && i < QuestionCount && 1 <= value <= 5
      modifies this
      ensures Valid()
      ensures answers == old(answers)[i := value]
    {
      answers := answers[i := value];
    }

    /** The code handed to `onFinish`. */
    method HandleSubmit() returns (code: string)
      requires Valid()
      ensures code == TypeCode(answers) && Mbti.IsCode(code)
    {
      code := TypeCode(answers);
    }
  }
}
