/** The sixteen-question forced-choice questionnaire, its four-axis scoring
    (`calculateScores`) and the archetype matcher (`determineCharacterType`)
    of frontend/src/utils/personalityQuestions.js. */
module PersonalityQuestions {
  import opened Common

  datatype Axis = EmotionLogic | TempoFastSlow | AbstractConcrete | ActionReflection

  /** The key order of the scores object. */
  const Axes: seq<Axis> := [EmotionLogic, TempoFastSlow, AbstractConcrete, ActionReflection]

  function AxisIndex(a: Axis): (k: nat)
    ensures k < |Axes| && Axes[k] == a
  {
    match a
    case EmotionLogic => 0
    case TempoFastSlow => 1
    case AbstractConcrete => 2
    case ActionReflection => 3
  }

  /** One option of a question: the axis it feeds and its signed unit weight. */
  datatype Choice = Choice(axis: Axis, score: int)

  datatype Question = Question(id: nat, optionA: Choice, optionB: Choice)

  /** `[...visualQuestions, ...situationQuestions]`, as written: the display
      texts are left out, only the axis and weight of each option matter. */
  const AllQuestions: seq<Question> := [
    Question(1, Choice(AbstractConcrete, 1), Choice(AbstractConcrete, -1)),
    Question(2, Choice(AbstractConcrete, 1), Choice(AbstractConcrete, -1)),
    Question(3, Choice(EmotionLogic, 1), Choice(EmotionLogic, -1)),
    Question(4, Choice(ActionReflection, -1), Choice(ActionReflection, 1)),
    Question(5, Choice(TempoFastSlow, -1), Choice(TempoFastSlow, 1)),
    Question(6, Choice(AbstractConcrete, 1), Choice(AbstractConcrete, -1)),
    Question(7, Choice(ActionReflection, -1), Choice(ActionReflection, 1)),
    Question(8, Choice(TempoFastSlow, -1), Choice(TempoFastSlow, 1)),
    Question(9, Choice(EmotionLogic, 1), Choice(EmotionLogic, -1)),
    Question(10, Choice(ActionReflection, 1), Choice(ActionReflection, -1)),
    Question(11, Choice(EmotionLogic, 1), Choice(EmotionLogic, -1)),
    Question(12, Choice(TempoFastSlow, -1), Choice(TempoFastSlow, 1)),
    Question(13, Choice(AbstractConcrete, 1), Choice(AbstractConcrete, -1)),
    Question(14, Choice(ActionReflection, -1), Choice(ActionReflection, 1)),
    Question(15, Choice(AbstractConcrete, 1), Choice(AbstractConcrete, -1)),
    Question(16, Choice(EmotionLogic, 1), Choice(EmotionLogic, -1))
  ]

  /** Both options of a question feed the same axis, with opposite unit weights. */
  predicate WellFormed(q: Question) {
    q.optionA.axis == q.optionB.axis &&
    (q.optionA.score == 1 || q.optionA.score == -1) &&
    q.optionB.score == -q.optionA.score
  }

  /** The axis scores object `{ emotionLogic, tempoFastSlow, abstractConcrete, actionReflection }`. */
  datatype Scores = Scores(emotionLogic: real, tempoFastSlow: real, abstractConcrete: real, actionReflection: real)
  {
    function Get(a: Axis): real {
      match a
      case EmotionLogic => emotionLogic
      case TempoFastSlow => tempoFastSlow
      case AbstractConcrete => abstractConcrete
      case ActionReflection => actionReflection
    }

    /** `axisScores[a] = v`. */
    function Set(a: Axis, v: real): (r: Scores)
      ensures r.Get(a) == v
      ensures forall b :: b != a ==> r.Get(b) == Get(b)
    {
      match a
      case EmotionLogic => this.(emotionLogic := v)
      case TempoFastSlow => this.(tempoFastSlow := v)
      case AbstractConcrete => this.(abstractConcrete := v)
      case ActionReflection => this.(actionReflection := v)
    }
  }

  const Step: real := 6.25
  const Neutral: Scores := Scores(50.0, 50.0, 50.0, 50.0)

  /** `answer === "A" ? question.optionA : question.optionB`. */
  function Selected(q: Question, answer: string): Choice {
    if answer == "A" then q.optionA else q.optionB
  }

  /** The signed weight that answer `answer` to question `q` adds to axis `a`. */
  function Delta(q: Question, answer: string, a: Axis): int {
    var c := Selected(q, answer);
    if c.axis == a then c.score else 0
  }

  /** The number of answers that have a question. */
  function Answered(answers: seq<string>): (n: nat)
    ensures n <= |AllQuestions| && n <= |answers|
    ensures n == |answers| || n == |AllQuestions|
  {
    if |answers| < |AllQuestions| then |answers| else |AllQuestions|
  }

  /** Sum of the weights that the first `n` answers add to axis `a`. */
  function WeightSum(answers: seq<string>, n: nat, a: Axis): int
    requires n <= |answers| && n <= |AllQuestions|
  {
    if n == 0 then 0
    else WeightSum(answers, n - 1, a) + Delta(AllQuestions[n - 1], answers[n - 1], a)
  }

  /** The unclamped value of axis `a` after folding the answered prefix. */
  function RawScore(answers: seq<string>, a: Axis): real {
    50.0 + Step * (WeightSum(answers, Answered(answers), a) as real)
  }

  /** `Math.max(0, Math.min(100, v))`. */
  function Clamp(v: real): (r: real)
    ensures 0.0 <= r <= 100.0
    ensures 0.0 <= v <= 100.0 ==> r == v
  {
    if v < 0.0 then 0.0 else if v > 100.0 then 100.0 else v
  }

  /** The scores `calculateScores(answers)` returns, axis by axis. */
  function ExpectedScores(answers: seq<string>): (s: Scores)
    ensures forall a :: s.Get(a) == Clamp(RawScore(answers, a))
  {
    Scores(Clamp(RawScore(answers, EmotionLogic)), Clamp(RawScore(answers, TempoFastSlow)),
           Clamp(RawScore(answers, AbstractConcrete)), Clamp(RawScore(answers, ActionReflection)))
  }

  /** `axisScores[selected.axis] += selected.score * 6.25` for one answer. */
  function ApplyAnswer(s: Scores, q: Question, answer: string): Scores {
    var c := Selected(q, answer);
    s.Set(c.axis, s.Get(c.axis) + (c.score as real) * Step)
  }

  /** The scores object after the first `n` answers, before clamping. */
  function Fold(answers: seq<string>, n: nat): Scores
    requires n <= |answers| && n <= |AllQuestions|
  {
    if n == 0 then Neutral else ApplyAnswer(Fold(answers, n - 1), AllQuestions[n - 1], answers[n - 1])
  }

  /** Folding the first `n` answers leaves 50 plus `6.25` times the
      accumulated weight on every axis. */
  lemma {:induction false} FoldIsWeightSum(answers: seq<string>, n: nat)
    requires n <= |answers| && n <= |AllQuestions|
    ensures forall a :: Fold(answers, n).Get(a) == 50.0 + Step * (WeightSum(answers, n, a) as real)
  {
    if n > 0 {
      FoldIsWeightSum(answers, n - 1);
    }
  }

  /** The folded scores are the raw scores. */
  lemma FoldIsRaw(answers: seq<string>)
    ensures forall a :: Fold(answers, Answered(answers)).Get(a) == RawScore(answers, a)
  {
    FoldIsWeightSum(answers, Answered(answers));
  }

  /** The first pass of `calculateScores`: start every axis at 50, walk the
      answers in order, skip those without a question and move the selected
      option's axis by `score * 6.25`. */
  method AccumulateAnswers(answers: seq<string>) returns (s: Scores)
    ensures s == Fold(answers, Answered(answers))
  {
    s := Neutral;
    var index := 0;
    while index < |answers|
      invariant 0 <= index <= |answers|
      invariant s == Fold(answers, if index < |AllQuestions| then index else |AllQuestions|)
    {
      if index < |AllQuestions| {
        var question := AllQuestions[index];
        var selected := if answers[index] == "A" then question.optionA else question.optionB;
        assert selected == Selected(question, answers[index]);
        s := s.Set(selected.axis, s.Get(selected.axis) + (selected.score as real) * Step);
      }
      index := index + 1;
    }
  }

  /** The second pass: every axis, in key order, clamped to [0,100]. */
  method ClampAxes(raw: Scores) returns (s: Scores)
    ensures forall a :: s.Get(a) == Clamp(raw.Get(a))
  {
    s := raw;
    var k := 0;
    while k < |Axes|
      invariant 0 <= k <= |Axes|
      invariant forall j :: 0 <= j < k ==> s.Get(Axes[j]) == Clamp(raw.Get(Axes[j]))
      invariant forall j :: k <= j < |Axes| ==> s.Get(Axes[j]) == raw.Get(Axes[j])
    {
      s := s.Set(Axes[k], Clamp(s.Get(Axes[k])));
      k := k + 1;
    }
    forall a: Axis
      ensures s.Get(a) == Clamp(raw.Get(a))
    {
      assert Axes[AxisIndex(a)] == a;
    }
  }

  /** `calculateScores`: the two passes in turn. */
  method CalculateScores(answers: seq<string>) returns (s: Scores)
    ensures s == ExpectedScores(answers)
    ensures forall a :: 0.0 <= s.Get(a) <= 100.0
  {
    var raw := AccumulateAnswers(answers);
    FoldIsRaw(answers);
    s := ClampAxes(raw);
    assert s.emotionLogic == s.Get(EmotionLogic) && s.tempoFastSlow == s.Get(TempoFastSlow);
    assert s.abstractConcrete == s.Get(AbstractConcrete) && s.actionReflection == s.Get(ActionReflection);
  }

  // ---------------------------------------------------------------------
  // Properties of the scoring

  /** Every question's two options feed one axis with opposite unit weights. */
  lemma AllQuestionsWellFormed()
    ensures forall i :: 0 <= i < |AllQuestions| ==> WellFormed(AllQuestions[i])
  {
  }

  /** The number of questions among the first `n` that feed axis `a`. */
  function Feeding(n: nat, a: Axis): (c: nat)
    requires n <= |AllQuestions|
    ensures c <= n
  {
    if n == 0 then 0
    else Feeding(n - 1, a) + (if AllQuestions[n - 1].optionA.axis == a then 1 else 0)
  }

  /** The table feeds the axes unevenly: abstractConcrete 5 questions,
      emotionLogic 4, actionReflection 4, tempoFastSlow 3. */
  lemma QuestionsPerAxis()
    ensures Feeding(16, AbstractConcrete) == 5
    ensures Feeding(16, EmotionLogic) == 4
    ensures Feeding(16, ActionReflection) == 4
    ensures Feeding(16, TempoFastSlow) == 3
  {
    assert Feeding(8, AbstractConcrete) == 3 && Feeding(8, EmotionLogic) == 1;
    assert Feeding(8, ActionReflection) == 2 && Feeding(8, TempoFastSlow) == 2;
  }

  /** The first `n` answers move axis `a` by at most one step per question
      that feeds it. */
  lemma {:induction false} WeightSumBounded(answers: seq<string>, n: nat, a: Axis)
    requires n <= |answers| && n <= |AllQuestions|
    ensures -(Feeding(n, a) as int) <= WeightSum(answers, n, a) <= Feeding(n, a)
  {
    if n > 0 {
      WeightSumBounded(answers, n - 1, a);
      AllQuestionsWellFormed();
      assert WellFormed(AllQuestions[n - 1]);
    }
  }

  /** Each axis stays within `50 ± 6.25 * k`, where `k` is the number of
      questions that feed it. The clamp to [0,100] therefore never changes a
      value: an axis cannot get below 18.75 or above 81.25. */
  lemma ScoresNeverClamped(answers: seq<string>, a: Axis)
    ensures 50.0 - Step * (Feeding(16, a) as real) <= RawScore(answers, a) <= 50.0 + Step * (Feeding(16, a) as real)
    ensures 18.75 <= ExpectedScores(answers).Get(a) <= 81.25
    ensures ExpectedScores(answers).Get(a) == RawScore(answers, a)
  {
    var n := Answered(answers);
    WeightSumBounded(answers, n, a);
    FeedingMonotone(n, 16, a);
    QuestionsPerAxis();
  }

  lemma {:induction false} FeedingMonotone(m: nat, n: nat, a: Axis)
    requires m <= n <= |AllQuestions|
    ensures Feeding(m, a) <= Feeding(n, a)
  {
    if m < n {
      FeedingMonotone(m, n - 1, a);
    }
  }

  /** The all-"A" questionnaire reaches the top of abstractConcrete's range:
      81.25, not 100. */
  lemma AllAReachesOnly8125()
    ensures RawScore(seq(16, _ => "A"), AbstractConcrete) == 81.25
  {
    var answers: seq<string> := seq(16, _ => "A");
    assert forall i :: 0 <= i < 16 && AllQuestions[i].optionA.axis == AbstractConcrete ==>
      AllQuestions[i].optionA.score == 1;
    var n := 0;
    while n < 16
      invariant n <= 16
      invariant WeightSum(answers, n, AbstractConcrete) == Feeding(n, AbstractConcrete)
    {
      assert answers[n] == "A";
      n := n + 1;
    }
    QuestionsPerAxis();
  }

  /** Weights added by the first `n` answers depend only on those answers. */
  lemma {:induction false} WeightSumPrefix(answers: seq<string>, more: seq<string>, n: nat, a: Axis)
    requires n <= |answers| && n <= |AllQuestions|
    ensures WeightSum(answers + more, n, a) == WeightSum(answers, n, a)
  {
    if n > 0 {
      WeightSumPrefix(answers, more, n - 1, a);
      assert (answers + more)[n - 1] == answers[n - 1];
    }
  }

  /** Folding one more answer moves only the axis of the option it selects,
      by `score * 6.25`; an answer beyond the sixteenth question moves nothing. */
  lemma AppendAnswer(answers: seq<string>, answer: string, a: Axis)
    ensures |answers| < |AllQuestions| ==>
      var c := Selected(AllQuestions[|answers|], answer);
      RawScore(answers + [answer], a) == RawScore(answers, a) + (if c.axis == a then (c.score as real) * Step else 0.0)
    ensures |answers| >= |AllQuestions| ==> RawScore(answers + [answer], a) == RawScore(answers, a)
  {
    var n := Answered(answers);
    WeightSumPrefix(answers, [answer], n, a);
    if |answers| < |AllQuestions| {
      assert Answered(answers + [answer]) == n + 1;
      assert (answers + [answer])[n] == answer;
    }
  }

  /** With no answers every axis stays at the neutral 50. */
  lemma NoAnswersIsNeutral()
    ensures ExpectedScores([]) == Neutral
  {
  }

  /** Only whether each answer is exactly "A" matters, and answers past the
      sixteenth are ignored. */
  lemma {:induction false} OnlyAnswerAMatters(xs: seq<string>, ys: seq<string>, n: nat, a: Axis)
    requires n <= |xs| && n <= |ys| && n <= |AllQuestions|
    requires forall i :: 0 <= i < n ==> (xs[i] == "A" <==> ys[i] == "A")
    ensures WeightSum(xs, n, a) == WeightSum(ys, n, a)
  {
    if n > 0 {
      OnlyAnswerAMatters(xs, ys, n - 1, a);
    }
  }

  lemma ExtraAnswersIgnored(answers: seq<string>)
    requires |answers| >= |AllQuestions|
    ensures ExpectedScores(answers) == ExpectedScores(answers[..|AllQuestions|])
  {
    var p := answers[..|AllQuestions|];
    forall a: Axis ensures WeightSum(answers, 16, a) == WeightSum(p, 16, a) {
      OnlyAnswerAMatters(answers, p, 16, a);
    }
  }

  // ---------------------------------------------------------------------
  // Archetype matching

  /** A closed home range `[min, max]` of an axis. */
  datatype Range = Range(lo: real, hi: real)

  datatype Ranges = Ranges(emotionLogic: Range, tempoFastSlow: Range, abstractConcrete: Range, actionReflection: Range)
  {
    function Get(a: Axis): Range {
      match a
      case EmotionLogic => emotionLogic
      case TempoFastSlow => tempoFastSlow
      case AbstractConcrete => abstractConcrete
      case ActionReflection => actionReflection
    }
  }

  /** An entry of `characterTypes`: its id, its personality code and its
      per-axis home ranges (the display texts, icon and colour are left out). */
  datatype Archetype = Archetype(id: string, mbti: string, scoreRange: Ranges)

  const Low: Range := Range(0.0, 40.0)
  const High: Range := Range(60.0, 100.0)

  /** `Object.values(characterTypes)`, in declaration order. */
  const Catalog: seq<Archetype> := [
    Archetype("dreamyStoryteller", "INFP", Ranges(High, Low, High, Low)),
    Archetype("actionDreamer", "ENFP", Ranges(High, High, High, High)),
    Archetype("realist", "ISTJ", Ranges(Low, Low, Low, Low)),
    Archetype("problemSolver", "ESTJ", Ranges(Low, High, Low, High)),
    Archetype("wordMagician", "ISFP", Ranges(High, Low, Low, Low)),
    Archetype("passionCoach", "ESFP", Ranges(High, High, Low, High)),
    Archetype("philosopher", "INTP", Ranges(Low, Low, High, Low)),
    Archetype("visionaryLeader", "ENTJ", Ranges(Low, High, High, High))
  ]

  /** `characterTypes.realist`, the fallback. */
  const Realist: Archetype := Catalog[2]

  function Abs(x: real): real { if x < 0.0 then -x else x }
  function MinReal(x: real, y: real): real { if x <= y then x else y }
  function MaxReal(x: real, y: real): real { if x >= y then x else y }

  /** The contribution of one axis: 100 inside the range, otherwise
      `max(0, 100 - distance to the nearer bound)`. */
  function AxisMatch(v: real, r: Range): (m: real)
    ensures 0.0 <= m <= 100.0
    ensures r.lo <= v <= r.hi ==> m == 100.0
    ensures r.lo <= r.hi && !(r.lo <= v <= r.hi) ==> m < 100.0
  {
    if r.lo <= v <= r.hi then 100.0
    else MaxReal(0.0, 100.0 - MinReal(Abs(v - r.lo), Abs(v - r.hi)))
  }

  /** The match score accumulated over the first `j` axes of the scores object. */
  function PartialMatch(t: Archetype, s: Scores, j: nat): (m: real)
    requires j <= |Axes|
    ensures 0.0 <= m <= 100.0 * (j as real)
  {
    if j == 0 then 0.0
    else PartialMatch(t, s, j - 1) + AxisMatch(s.Get(Axes[j - 1]), t.scoreRange.Get(Axes[j - 1]))
  }

  /** The match score of archetype `t` for the scores `s`. */
  function MatchScore(t: Archetype, s: Scores): real {
    PartialMatch(t, s, |Axes|)
  }

  /** `s` lies in the home range of `t` on every axis. */
  predicate AtHome(t: Archetype, s: Scores) {
    forall a :: t.scoreRange.Get(a).lo <= s.Get(a) <= t.scoreRange.Get(a).hi
  }

  predicate RangesOrdered(t: Archetype) {
    forall a :: t.scoreRange.Get(a).lo <= t.scoreRange.Get(a).hi
  }

  /** `k` is the index `determineCharacterType` keeps: its score is maximal
      and every earlier candidate scores strictly less. */
  predicate IsFirstBest(catalog: seq<Archetype>, s: Scores, k: int) {
    0 <= k < |catalog| &&
    (forall j :: 0 <= j < |catalog| ==> MatchScore(catalog[j], s) <= MatchScore(catalog[k], s)) &&
    (forall j :: 0 <= j < k ==> MatchScore(catalog[j], s) < MatchScore(catalog[k], s))
  }

  /** The inner pass of `determineCharacterType`: the match score of one
      candidate, summed over the axes in key order. */
  method ScoreArchetype(t: Archetype, scores: Scores) returns (matchScore: real)
    ensures matchScore == MatchScore(t, scores)
  {
    matchScore := 0.0;
    for j := 0 to |Axes|
      invariant matchScore == PartialMatch(t, scores, j)
    {
      var userScore := scores.Get(Axes[j]);
      var range := t.scoreRange.Get(Axes[j]);
      if userScore >= range.lo && userScore <= range.hi {
        matchScore := matchScore + 100.0;
      } else {
        var distance := MinReal(Abs(userScore - range.lo), Abs(userScore - range.hi));
        matchScore := matchScore + MaxReal(0.0, 100.0 - distance);
      }
    }
  }

  /** `determineCharacterType` over a given catalog: keep the first
      candidate whose score is strictly greater than the best so far
      (starting from -1), and fall back to `realist` when nothing was kept. */
  method DetermineCharacterTypeIn(catalog: seq<Archetype>, scores: Scores) returns (best: Archetype)
    ensures catalog == [] ==> best == Realist
    ensures catalog != [] ==> exists k :: IsFirstBest(catalog, scores, k) && best == catalog[k]
  {
    var bestMatch: Option<Archetype> := None;
    var bestScore: real := -1.0;
    ghost var bestIndex := 0;
    for i := 0 to |catalog|
      invariant i == 0 ==> bestMatch.None? && bestScore == -1.0
      invariant i > 0 ==> bestIndex < i && bestMatch == Some(catalog[bestIndex])
      invariant i > 0 ==> bestScore == MatchScore(catalog[bestIndex], scores)
      invariant forall j :: 0 <= j < i ==> MatchScore(catalog[j], scores) <= bestScore
      invariant i > 0 ==> forall j :: 0 <= j < bestIndex ==> MatchScore(catalog[j], scores) < bestScore
    {
      var matchScore := ScoreArchetype(catalog[i], scores);
      if matchScore > bestScore {
        bestScore := matchScore;
        bestMatch := Some(catalog[i]);
        bestIndex := i;
      }
    }
    best := if bestMatch.Some? then bestMatch.value else Realist;
  }

  /** `determineCharacterType` on the catalog of the source. */
  method DetermineCharacterType(scores: Scores) returns (best: Archetype)
    ensures exists k :: IsFirstBest(Catalog, scores, k) && best == Catalog[k]
    ensures best in Catalog
  {
    best := DetermineCharacterTypeIn(Catalog, scores);
  }

  // ---------------------------------------------------------------------
  // Properties of the matching

  lemma MatchScoreUnfold(t: Archetype, s: Scores)
    ensures MatchScore(t, s) ==
      AxisMatch(s.emotionLogic, t.scoreRange.emotionLogic) + AxisMatch(s.tempoFastSlow, t.scoreRange.tempoFastSlow) +
      AxisMatch(s.abstractConcrete, t.scoreRange.abstractConcrete) + AxisMatch(s.actionReflection, t.scoreRange.actionReflection)
  {
    assert PartialMatch(t, s, 1) == AxisMatch(s.emotionLogic, t.scoreRange.emotionLogic);
    assert PartialMatch(t, s, 2) == PartialMatch(t, s, 1) + AxisMatch(s.tempoFastSlow, t.scoreRange.tempoFastSlow);
    assert PartialMatch(t, s, 3) == PartialMatch(t, s, 2) + AxisMatch(s.abstractConcrete, t.scoreRange.abstractConcrete);
  }

  /** Every candidate total lies in [0,400]; it is 400 exactly when the
      scores lie in the candidate's home range on all four axes. */
  lemma MatchScoreBounds(t: Archetype, s: Scores)
    ensures 0.0 <= MatchScore(t, s) <= 400.0
    ensures AtHome(t, s) ==> MatchScore(t, s) == 400.0
    ensures RangesOrdered(t) && MatchScore(t, s) == 400.0 ==> AtHome(t, s)
  {
    MatchScoreUnfold(t, s);
    if AtHome(t, s) {
      assert t.scoreRange.Get(EmotionLogic).lo <= s.Get(EmotionLogic) <= t.scoreRange.Get(EmotionLogic).hi;
      assert t.scoreRange.Get(TempoFastSlow).lo <= s.Get(TempoFastSlow) <= t.scoreRange.Get(TempoFastSlow).hi;
      assert t.scoreRange.Get(AbstractConcrete).lo <= s.Get(AbstractConcrete) <= t.scoreRange.Get(AbstractConcrete).hi;
      assert t.scoreRange.Get(ActionReflection).lo <= s.Get(ActionReflection) <= t.scoreRange.Get(ActionReflection).hi;
    }
    if RangesOrdered(t) && MatchScore(t, s) == 400.0 {
      forall a ensures t.scoreRange.Get(a).lo <= s.Get(a) <= t.scoreRange.Get(a).hi {
        assert t.scoreRange.Get(a).lo <= t.scoreRange.Get(a).hi;
      }
    }
  }

  /** A candidate whose home contains the scores wins, unless an earlier
      candidate's home contains them too: ties go to the earlier one. */
  lemma HomeArchetypeWins(catalog: seq<Archetype>, s: Scores, k: nat)
    requires k < |catalog| && AtHome(catalog[k], s)
    requires forall j :: 0 <= j < |catalog| ==> RangesOrdered(catalog[j])
    requires forall j :: 0 <= j < k ==> !AtHome(catalog[j], s)
    ensures IsFirstBest(catalog, s, k)
  {
    MatchScoreBounds(catalog[k], s);
    forall j | 0 <= j < |catalog|
      ensures MatchScore(catalog[j], s) <= MatchScore(catalog[k], s)
      ensures j < k ==> MatchScore(catalog[j], s) < MatchScore(catalog[k], s)
    {
      MatchScoreBounds(catalog[j], s);
    }
  }

  /** The first best index is unique, so the matcher is deterministic. */
  lemma FirstBestUnique(catalog: seq<Archetype>, s: Scores, k1: int, k2: int)
    requires IsFirstBest(catalog, s, k1) && IsFirstBest(catalog, s, k2)
    ensures k1 == k2
  {
    assert MatchScore(catalog[k1], s) == MatchScore(catalog[k2], s);
  }

  /** Which axes of an archetype's home are the upper range [60,100]. */
  function Pattern(t: Archetype): seq<bool> {
    [t.scoreRange.emotionLogic == High, t.scoreRange.tempoFastSlow == High,
     t.scoreRange.abstractConcrete == High, t.scoreRange.actionReflection == High]
  }

  function ScorePattern(s: Scores): seq<bool> {
    [s.emotionLogic >= 60.0, s.tempoFastSlow >= 60.0, s.abstractConcrete >= 60.0, s.actionReflection >= 60.0]
  }

  predicate LowOrHigh(t: Archetype) {
    forall a :: t.scoreRange.Get(a) == Low || t.scoreRange.Get(a) == High
  }

  /** A home built of [0,40] and [60,100] ranges is identified by which
      scores are at least 60. */
  lemma HomePattern(t: Archetype, s: Scores)
    requires LowOrHigh(t) && AtHome(t, s)
    ensures Pattern(t) == ScorePattern(s)
  {
    forall a ensures (t.scoreRange.Get(a) == High) == (s.Get(a) >= 60.0) {
      assert t.scoreRange.Get(a).lo <= s.Get(a) <= t.scoreRange.Get(a).hi;
    }
    assert t.scoreRange.Get(EmotionLogic) == t.scoreRange.emotionLogic;
    assert t.scoreRange.Get(TempoFastSlow) == t.scoreRange.tempoFastSlow;
    assert t.scoreRange.Get(AbstractConcrete) == t.scoreRange.abstractConcrete;
    assert t.scoreRange.Get(ActionReflection) == t.scoreRange.actionReflection;
  }

  /** No two archetypes of the catalog share a point of their homes: each
      home is a distinct pattern of [0,40] and [60,100] ranges. */
  lemma CatalogHomesDisjoint(s: Scores, i: nat, j: nat)
    requires i < |Catalog| && j < |Catalog| && i != j
    ensures !(AtHome(Catalog[i], s) && AtHome(Catalog[j], s))
  {
    assert forall k :: 0 <= k < |Catalog| ==> LowOrHigh(Catalog[k]);
    assert forall k, m :: 0 <= k < m < |Catalog| ==> Pattern(Catalog[k]) != Pattern(Catalog[m]);
    if AtHome(Catalog[i], s) {
      HomePattern(Catalog[i], s);
    }
    if AtHome(Catalog[j], s) {
      HomePattern(Catalog[j], s);
    }
  }

  /** Scores inside all four home ranges of a catalog archetype return that archetype. */
  lemma AtHomeDeterminesType(s: Scores, k: nat)
    requires k < |Catalog| && AtHome(Catalog[k], s)
    ensures IsFirstBest(Catalog, s, k)
  {
    forall j | 0 <= j < k ensures !AtHome(Catalog[j], s) {
      CatalogHomesDisjoint(s, j, k);
    }
    HomeArchetypeWins(Catalog, s, k);
  }

  /** `{emotionLogic: 100, tempoFastSlow: 0, abstractConcrete: 100,
      actionReflection: 0}` returns dreamyStoryteller. */
  lemma DreamyStorytellerScenario()
    ensures IsFirstBest(Catalog, Scores(100.0, 0.0, 100.0, 0.0), 0)
    ensures Catalog[0].id == "dreamyStoryteller"
  {
    AtHomeDeterminesType(Scores(100.0, 0.0, 100.0, 0.0), 0);
  }

  /** The neutral scores are 10 away from every range on every axis, so all
      eight archetypes tie at 360 and the first one, dreamyStoryteller, is
      kept: an unanswered questionnaire yields dreamyStoryteller. */
  lemma NeutralTieGoesToFirst()
    ensures forall j :: 0 <= j < |Catalog| ==> MatchScore(Catalog[j], Neutral) == 360.0
    ensures IsFirstBest(Catalog, ExpectedScores([]), 0)
  {
    assert forall k :: 0 <= k < |Catalog| ==> LowOrHigh(Catalog[k]);
    forall j | 0 <= j < |Catalog| ensures MatchScore(Catalog[j], Neutral) == 360.0 {
      NeutralScore(Catalog[j]);
    }
    NoAnswersIsNeutral();
  }

  /** Fifty is ten away from both [0,40] and [60,100]. */
  lemma NeutralScore(t: Archetype)
    requires LowOrHigh(t)
    ensures MatchScore(t, Neutral) == 360.0
  {
    MatchScoreUnfold(t, Neutral);
    assert forall a :: AxisMatch(50.0, t.scoreRange.Get(a)) == 90.0;
    assert t.scoreRange.emotionLogic == t.scoreRange.Get(EmotionLogic);
    assert t.scoreRange.tempoFastSlow == t.scoreRange.Get(TempoFastSlow);
    assert t.scoreRange.abstractConcrete == t.scoreRange.Get(AbstractConcrete);
    assert t.scoreRange.actionReflection == t.scoreRange.Get(ActionReflection);
  }
}
