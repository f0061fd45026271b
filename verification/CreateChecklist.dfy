/** The checklist workflow: compile the payload with retried activities, fan-out and fan-in, then end.

    What each activity is asked follows from what the earlier ones answered, so a script decides everything: which stages
    are passed, which one stops the workflow and for what cause, what is sent, and how many attempts are made. */
module CreateChecklist {
  import opened Common
  import opened Text
  import opened Lookup
  import opened Types
  import opened Validate
  import opened Ids
  import opened Active
  import opened Failures
  import opened Calls
  import opened Effects
  import opened Payload
  import opened Workflows

  /** Everything outside the workflow: how each attempt of each activity ends, given the activity's input. */
  datatype ChecklistScript = ChecklistScript(
    inputs: seq<Attempted<()>>,
    analyze: seq<Attempted<seq<Dimension>>>,
    generate: Dimension -> seq<Attempted<seq<DraftQuestion>>>,
    weigh: seq<CandidateQuestion> -> seq<Attempted<seq<Weight>>>,
    split: (CandidateQuestion, int) -> seq<Attempted<SplitQuestions>>,
    succeed: Content -> seq<Attempted<()>>,
    fail: Details -> seq<Attempted<()>>)

  ghost predicate AnalyzedOk(attempts: seq<Attempted<seq<Dimension>>>, limits: ChecklistLimits, stored: set<string>) {
    ErrorsOk(attempts, stored) && forall k | 0 <= k < |attempts| && attempts[k].Done? ::
      DimensionsOk(attempts[k].value, limits) && forall i | 0 <= i < |attempts[k].value| :: attempts[k].value[i].ordinal == i + 1
  }

  ghost predicate GeneratedOk(attempts: seq<Attempted<seq<DraftQuestion>>>, limits: ChecklistLimits, stored: set<string>) {
    ErrorsOk(attempts, stored) && forall k | 0 <= k < |attempts| && attempts[k].Done? :: QuestionGenerationOk(attempts[k].value, limits)
  }

  ghost predicate WeighedOk(attempts: seq<Attempted<seq<Weight>>>, cs: seq<CandidateQuestion>, limits: ChecklistLimits,
                            stored: set<string>)
  {
    ErrorsOk(attempts, stored) && forall k | 0 <= k < |attempts| && attempts[k].Done? :: WeightsOk(cs, attempts[k].value, limits)
  }

  ghost predicate SplitAttemptsOk(attempts: seq<Attempted<SplitQuestions>>, c: CandidateQuestion, weight: int, stored: set<string>) {
    ErrorsOk(attempts, stored) && forall k | 0 <= k < |attempts| && attempts[k].Done? ::
      attempts[k].value.candidateQuestionID == c.id && SplitOk(attempts[k].value, weight)
  }

  /** The activities keep their contracts; stored are the artifacts there are when the workflow ends. */
  ghost predicate ScriptOk(script: ChecklistScript, limits: ChecklistLimits, stored: set<string>) {
    && ErrorsOk(script.inputs, stored)
    && AnalyzedOk(script.analyze, limits, stored)
    && (forall d :: GeneratedOk(script.generate(d), limits, stored))
    && (forall cs :: WeighedOk(script.weigh(cs), cs, limits, stored))
    && (forall c, w :: SplitAttemptsOk(script.split(c, w), c, w, stored))
    && forall c :: ErrorsOk(script.succeed(c), stored)
  }

  // ---------------------------------------------------------------- what a script amounts to

  function Dimensions(script: ChecklistScript): seq<Dimension> {
    ValueOr(Answer(script.analyze), [])
  }

  /** The question activities, one for each dimension. */
  function Generates(script: ChecklistScript, ds: seq<Dimension>): (asked: seq<seq<Attempted<seq<DraftQuestion>>>>)
    ensures |asked| == |ds|
  {
    seq(|ds|, i requires 0 <= i < |ds| => script.generate(ds[i]))
  }

  function Generated(script: ChecklistScript): (answers: seq<Future<seq<DraftQuestion>>>)
    ensures |answers| == |Dimensions(script)|
  {
    Answers(Generates(script, Dimensions(script)))
  }

  function Drafts(script: ChecklistScript): (gens: seq<seq<DraftQuestion>>)
    ensures |gens| == |Dimensions(script)|
  {
    Values(Generated(script), [])
  }

  function Candidates(script: ChecklistScript): seq<CandidateQuestion> {
    FanIn(Dimensions(script), Drafts(script))
  }

  function Weighed(script: ChecklistScript): Result<seq<Weight>, Cause> {
    Answer(script.weigh(Candidates(script)))
  }

  function Weights(script: ChecklistScript): seq<Weight> {
    ValueOr(Weighed(script), [])
  }

  /** The split activities, one for each candidate of weight above 1. */
  function Splits(script: ChecklistScript, cs: seq<CandidateQuestion>, ws: seq<Weight>): (asked: seq<seq<Attempted<SplitQuestions>>>)
    ensures |asked| == |ToSplit(cs, ws)|
  {
    var split := ToSplit(cs, ws);
    seq(|split|, i requires 0 <= i < |split| => script.split(split[i], WeightOf(ws, split[i].id)))
  }

  const NO_SPLIT := SplitQuestions("", [])

  function SplitFutures(script: ChecklistScript): (answers: seq<Future<SplitQuestions>>)
    ensures |answers| == |ToSplit(Candidates(script), Weights(script))|
  {
    Answers(Splits(script, Candidates(script), Weights(script)))
  }

  /** What the split activities answered, in the order of their candidates. */
  function SplitsOf(script: ChecklistScript): seq<SplitQuestions> {
    Values(SplitFutures(script), NO_SPLIT)
  }

  /** What the workflow sends, if it gets that far: what the activities answered, put together. */
  function PayloadOf(script: ChecklistScript): Content {
    Sent(Dimensions(script), Drafts(script), Weights(script), SplitsOf(script))
  }

  /** Whether a stage lets the workflow go on. */
  ghost predicate Passed(stage: Stage, limits: ChecklistLimits, script: ChecklistScript) {
    match stage
    case AtLimits => limits.Valid()
    case AtChecklistInputs => Answer(script.inputs).Success?
    case AtDimensions => Answer(script.analyze).Success?
    case AtQuestions => AllSucceeded(Generated(script))
    case AtWeights => Weighed(script).Success? && WeightSum(Weights(script)) <= limits.WithDefaults().maxFinalQuestions
    case AtSplits => AllSucceeded(SplitFutures(script))
    case AtBuild => WeightSum(Weights(script)) > 0
    case AtChecklistSuccess => Answer(script.succeed(PayloadOf(script))).Success?
    case _ => true
  }

  /** Every earlier stage was passed. */
  ghost predicate Cleared(stage: Stage, limits: ChecklistLimits, script: ChecklistScript) {
    forall earlier: Stage | earlier.Rank() < stage.Rank() :: Passed(earlier, limits, script)
  }

  ghost predicate Completed(limits: ChecklistLimits, script: ChecklistScript) {
    Cleared(AtChecklistSuccess, limits, script) && Passed(AtChecklistSuccess, limits, script)
  }

  /** The first stage that was not passed, and its cause: that of the activity that failed there, among several the first
      one awaited, or the workflow's own error. */
  ghost predicate StoppedFor(stopped: Stopped, checklistID: string, limits: ChecklistLimits, script: ChecklistScript) {
    Cleared(stopped.stage, limits, script) && !Passed(stopped.stage, limits, script) &&
    match stopped.stage
    case AtLimits => stopped.cause == OwnError(OtherError)
    case AtChecklistInputs => Answer(script.inputs) == Failure(stopped.cause)
    case AtDimensions => Answer(script.analyze) == Failure(stopped.cause)
    case AtQuestions => FirstFailure(Generated(script), stopped.cause)
    case AtWeights =>
      if Weighed(script).Failure? then Weighed(script) == Failure(stopped.cause)
      else stopped.cause == Own(TooMany(checklistID, limits, WeightSum(Weights(script))))
    case AtSplits => FirstFailure(SplitFutures(script), stopped.cause)
    case AtBuild => stopped.cause == Own(Semantic(InvalidFinalChecklist, Empty))
    case AtChecklistSuccess => Answer(script.succeed(PayloadOf(script))) == Failure(stopped.cause)
    case _ => false
  }

  function TooMany(checklistID: string, limits: ChecklistLimits, projected: int): SemanticError {
    LimitExceeded(InvalidFinalChecklist,
      LimitDiagnostic("max_final_questions", limits.WithDefaults().maxFinalQuestions, projected, checklistID, "weight_assignment"))
  }

  /** The attempts made up to the end of a stage. */
  function AttemptsThrough(stage: Stage, script: ChecklistScript): nat
    decreases stage.Rank()
  {
    match stage
    case AtChecklistInputs => Used(script.inputs)
    case AtDimensions => AttemptsThrough(AtChecklistInputs, script) + Used(script.analyze)
    case AtQuestions => AttemptsThrough(AtDimensions, script) + TotalUsed(Generates(script, Dimensions(script)))
    case AtWeights => AttemptsThrough(AtQuestions, script) + Used(script.weigh(Candidates(script)))
    case AtSplits => AttemptsThrough(AtWeights, script) + TotalUsed(Splits(script, Candidates(script), Weights(script)))
    case AtBuild => AttemptsThrough(AtSplits, script)
    case AtChecklistSuccess => AttemptsThrough(AtBuild, script) + Used(script.succeed(PayloadOf(script)))
    case _ => 0
  }

  lemma ClearedNext(stage: Stage, next: Stage, limits: ChecklistLimits, script: ChecklistScript)
    requires next.Rank() == stage.Rank() + 1 && !stage.OfEvaluation()
    ensures Cleared(next, limits, script) <==> Cleared(stage, limits, script) && Passed(stage, limits, script)
  {
  }

  /** A script ends in exactly one way: two stops are the same stop, and what is completed does not stop. */
  lemma {:induction false} OneEnding(a: Stopped, b: Stopped, checklistID: string, limits: ChecklistLimits, script: ChecklistScript)
    requires StoppedFor(a, checklistID, limits, script) && StoppedFor(b, checklistID, limits, script)
    ensures a == b && !Completed(limits, script)
  {
    assert a.stage == b.stage by {
      assert a.stage.Rank() < b.stage.Rank() ==> Passed(a.stage, limits, script);
      assert b.stage.Rank() < a.stage.Rank() ==> Passed(b.stage, limits, script);
    }
    if a.stage == AtQuestions {
      OneFirstFailure(Generated(script), a.cause, b.cause);
    }
    if a.stage == AtSplits {
      OneFirstFailure(SplitFutures(script), a.cause, b.cause);
    }
  }

  ghost predicate EveryDimensionAnswered(script: ChecklistScript) {
    forall i | 0 <= i < |Dimensions(script)| :: Answer(script.generate(Dimensions(script)[i])).Success?
  }

  ghost predicate EverySplitAnswered(script: ChecklistScript) {
    forall c | c in ToSplit(Candidates(script), Weights(script)) :: Answer(script.split(c, WeightOf(Weights(script), c.id))).Success?
  }

  /** Nothing is sent unless every activity asked has answered and the sum of the weights is in range, and then it is sent. */
  lemma {:induction false} SendsIff(limits: ChecklistLimits, script: ChecklistScript)
    ensures Cleared(AtChecklistSuccess, limits, script) <==>
            && limits.Valid() && Answer(script.inputs).Success? && Answer(script.analyze).Success?
            && EveryDimensionAnswered(script) && Weighed(script).Success? && EverySplitAnswered(script)
            && 1 <= WeightSum(Weights(script)) <= limits.WithDefaults().maxFinalQuestions
  {
    EachPassed(limits, script);
    EachPassedMeans(limits, script);
    AllGenerated(script);
    AllSplit(script);
  }

  lemma EachPassedMeans(limits: ChecklistLimits, script: ChecklistScript)
    ensures Passed(AtLimits, limits, script) <==> limits.Valid()
    ensures Passed(AtChecklistInputs, limits, script) <==> Answer(script.inputs).Success?
    ensures Passed(AtDimensions, limits, script) <==> Answer(script.analyze).Success?
    ensures Passed(AtQuestions, limits, script) <==> AllSucceeded(Generated(script))
    ensures Passed(AtWeights, limits, script) <==>
            Weighed(script).Success? && WeightSum(Weights(script)) <= limits.WithDefaults().maxFinalQuestions
    ensures Passed(AtSplits, limits, script) <==> AllSucceeded(SplitFutures(script))
    ensures Passed(AtBuild, limits, script) <==> WeightSum(Weights(script)) > 0
  {
  }

  lemma {:induction false} AllGenerated(script: ChecklistScript)
    ensures AllSucceeded(Generated(script)) <==> EveryDimensionAnswered(script)
  {
    var ds := Dimensions(script);
    assert forall i | 0 <= i < |ds| :: Generated(script)[i] == Answer(script.generate(ds[i]));
  }

  lemma {:induction false} AllSplit(script: ChecklistScript)
    ensures AllSucceeded(SplitFutures(script)) <==> EverySplitAnswered(script)
  {
    var split, ws := ToSplit(Candidates(script), Weights(script)), Weights(script);
    assert forall i | 0 <= i < |split| :: SplitFutures(script)[i] == Answer(script.split(split[i], WeightOf(ws, split[i].id)));
  }

  lemma EachPassed(limits: ChecklistLimits, script: ChecklistScript)
    ensures Cleared(AtChecklistSuccess, limits, script) <==>
            && Passed(AtLimits, limits, script) && Passed(AtChecklistInputs, limits, script) && Passed(AtDimensions, limits, script)
            && Passed(AtQuestions, limits, script) && Passed(AtWeights, limits, script) && Passed(AtSplits, limits, script)
            && Passed(AtBuild, limits, script)
  {
  }

  /** The workflow's own errors: limits no one may set, more questions than the limit allows, and none at all. */
  lemma {:induction false} OwnStop(s: Stopped, checklistID: string, limits: ChecklistLimits, script: ChecklistScript)
    requires StoppedFor(s, checklistID, limits, script) && s.cause.OwnError?
    ensures var sum, max := WeightSum(Weights(script)), limits.WithDefaults().maxFinalQuestions;
            match s.stage
            case AtLimits => !limits.Valid() && s.cause.e == OtherError
            case AtWeights =>
              && Weighed(script).Success? && sum > max
              && s.cause.e == CoreSemanticError(SemanticError(InvalidFinalChecklist, OverLimit,
                                [LimitDiagnostic("max_final_questions", max, sum, checklistID, "weight_assignment")]))
            case AtBuild => sum == 0 && s.cause.e == CoreSemanticError(SemanticError(InvalidFinalChecklist, Empty, []))
            case _ => false
  {
  }

  // What is sent, in terms of the activities' answers.

  /** The dimensions and weights sent are the ones answered, and the questions are the expansion of the candidates sent. */
  lemma {:induction false} SentAsAnswered(limits: ChecklistLimits, script: ChecklistScript, c: Content)
    requires Cleared(AtChecklistSuccess, limits, script) && c == PayloadOf(script)
    ensures Answer(script.analyze) == Success(c.dimensions)
    ensures Answer(script.weigh(c.candidates)) == Success(c.weights)
    ensures c.questions == FinalChecklist(c.candidates, c.weights, SplitsOf(script))
  {
    EachPassed(limits, script);
    EachPassedMeans(limits, script);
  }

  /** The candidates sent are the questions answered for each dimension, dimension after dimension and numbered through. */
  lemma {:induction false} SentCandidate(script: ChecklistScript, gens: seq<seq<DraftQuestion>>, i: nat, k: nat)
    requires EveryDimensionAnswered(script) && gens == Drafts(script) && i < |Dimensions(script)|
    ensures Answer(script.generate(Dimensions(script)[i])) == Success(gens[i])
    ensures |PayloadOf(script).candidates| == DraftCount(gens)
    ensures k < |gens[i]| ==>
              var at := DraftCount(gens[..i]) + k;
              && at < |PayloadOf(script).candidates|
              && PayloadOf(script).candidates[at] ==
                 CandidateQuestion(NumberedId('c', at + 1), Dimensions(script)[i].id, at + 1, gens[i][k].rationale, gens[i][k].question)
  {
    var ds := Dimensions(script);
    assert Generated(script)[i] == Answer(script.generate(ds[i]));
    FanInLength(ds, gens);
    if k < |gens[i]| {
      FanInAt(ds, gens, i, k);
    }
  }

  // ---------------------------------------------------------------- what is answered is valid

  lemma {:induction false} DimensionsAnswered(script: ChecklistScript, limits: ChecklistLimits, stored: set<string>)
    requires ScriptOk(script, limits, stored) && Answer(script.analyze).Success?
    ensures DimensionsOk(Dimensions(script), limits)
    ensures forall i | 0 <= i < |Dimensions(script)| :: Dimensions(script)[i].ordinal == i + 1
  {
    AnsweredAt(script.analyze);
  }

  lemma {:induction false} DraftsAnswered(script: ChecklistScript, limits: ChecklistLimits, stored: set<string>)
    requires ScriptOk(script, limits, stored) && AllSucceeded(Generated(script))
    ensures forall i | 0 <= i < |Drafts(script)| :: QuestionGenerationOk(Drafts(script)[i], limits)
  {
    var ds := Dimensions(script);
    forall i | 0 <= i < |ds| ensures QuestionGenerationOk(Drafts(script)[i], limits) {
      assert Generated(script)[i].Success?;
      assert GeneratedOk(script.generate(ds[i]), limits, stored);
      AnsweredAt(script.generate(ds[i]));
    }
  }

  lemma {:induction false} WeightsAnswered(script: ChecklistScript, limits: ChecklistLimits, stored: set<string>)
    requires ScriptOk(script, limits, stored) && Weighed(script).Success?
    ensures WeightsOk(Candidates(script), Weights(script), limits)
  {
    assert WeighedOk(script.weigh(Candidates(script)), Candidates(script), limits, stored);
    AnsweredAt(script.weigh(Candidates(script)));
  }

  lemma {:induction false} SplitsAnswered(script: ChecklistScript, limits: ChecklistLimits, stored: set<string>)
    requires ScriptOk(script, limits, stored) && AllSucceeded(SplitFutures(script))
    ensures var split, ss := ToSplit(Candidates(script), Weights(script)), SplitsOf(script);
            forall i | 0 <= i < |ss| :: SplitAnswers(ss[i], split[i], Weights(script))
  {
    var cs, ws := Candidates(script), Weights(script);
    var split := ToSplit(cs, ws);
    forall i | 0 <= i < |split| ensures SplitAnswers(SplitsOf(script)[i], split[i], ws) {
      var w := WeightOf(ws, split[i].id);
      assert SplitFutures(script)[i].Success?;
      assert SplitAttemptsOk(script.split(split[i], w), split[i], w, stored);
      AnsweredAt(script.split(split[i], w));
    }
  }

  /** The split of a candidate, looked up in what all splits answered, is what its own activity answered. */
  lemma {:induction false} SplitByItsActivity(script: ChecklistScript, limits: ChecklistLimits, stored: set<string>, c: CandidateQuestion)
    requires ScriptOk(script, limits, stored) && AllSucceeded(SplitFutures(script)) && UniqueCandidates(Candidates(script))
    requires c in Candidates(script) && WeightOf(Weights(script), c.id) > 1
    ensures var answer := Answer(script.split(c, WeightOf(Weights(script), c.id)));
            answer.Success? && SplitOf(SplitsOf(script), c.id) == Some(answer.value)
  {
    var cs, ws, ss := Candidates(script), Weights(script), SplitsOf(script);
    ToSplitHasAll(cs, ws, c);
    var j :| 0 <= j < |ss| && ToSplit(cs, ws)[j] == c;
    SplitsAnswered(script, limits, stored);
    FanOutFits(cs, ws, ss);
    assert SplitFutures(script)[j].Success? && ss[j] == SplitFutures(script)[j].value;
    assert SplitAnswers(ss[j], c, ws);
    assert UniqueBy(ss, SplitKey);
    FindUnique(ss, SplitKey, ss[j]);
  }

  /** Candidate i of weight above 1 is expanded from what its own split activity answered. */
  lemma {:induction false} BlockAnswered(script: ChecklistScript, limits: ChecklistLimits, stored: set<string>,
                                         cs: seq<CandidateQuestion>, ws: seq<Weight>, i: nat)
    requires ScriptOk(script, limits, stored) && Weighed(script).Success? && EverySplitAnswered(script)
    requires cs == Candidates(script) && ws == Weights(script) && i < |cs|
    ensures SplitsFit(cs, ws, SplitsOf(script))
    ensures var w := WeightOf(ws, cs[i].id);
            var answer := Answer(script.split(cs[i], w));
            w > 1 ==> answer.Success? && SplitOf(SplitsOf(script), cs[i].id) == Some(answer.value)
  {
    CandidatesFit(script, limits, stored);
    if WeightOf(ws, cs[i].id) > 1 {
      SplitByItsActivity(script, limits, stored, cs[i]);
    }
  }

  lemma {:induction false} CandidatesFit(script: ChecklistScript, limits: ChecklistLimits, stored: set<string>)
    requires ScriptOk(script, limits, stored) && Weighed(script).Success? && EverySplitAnswered(script)
    ensures AllSucceeded(SplitFutures(script)) && UniqueCandidates(Candidates(script))
    ensures SplitsFit(Candidates(script), Weights(script), SplitsOf(script))
  {
    AllSplit(script);
    WeightsAnswered(script, limits, stored);
    SplitsAnswered(script, limits, stored);
    FanOutFits(Candidates(script), Weights(script), SplitsOf(script));
  }

  lemma EarlierPassed(script: ChecklistScript, limits: ChecklistLimits)
    requires Cleared(AtBuild, limits, script)
    ensures Passed(AtDimensions, limits, script) && Passed(AtQuestions, limits, script)
    ensures Passed(AtWeights, limits, script) && Passed(AtSplits, limits, script)
  {
  }

  lemma {:induction false} EverythingAnswered(script: ChecklistScript, limits: ChecklistLimits, stored: set<string>)
    requires ScriptOk(script, limits, stored) && Cleared(AtBuild, limits, script)
    ensures Answered(Dimensions(script), Drafts(script), Weights(script), SplitsOf(script), limits)
    ensures WeightSum(Weights(script)) <= limits.WithDefaults().maxFinalQuestions
  {
    EarlierPassed(script, limits);
    DimensionsAnswered(script, limits, stored);
    DraftsAnswered(script, limits, stored);
    WeightsAnswered(script, limits, stored);
    SplitsAnswered(script, limits, stored);
  }

  /** What the workflow sends is what `SucceedChecklist` and the schema accept. */
  lemma {:induction false} PayloadIsAccepted(script: ChecklistScript, limits: ChecklistLimits, stored: set<string>)
    requires ScriptOk(script, limits, stored) && Cleared(AtChecklistSuccess, limits, script)
    ensures ContentArgsOk(PayloadOf(script), limits) && DistinctOrdinals(PayloadOf(script))
  {
    ClearedNext(AtBuild, AtChecklistSuccess, limits, script);
    EverythingAnswered(script, limits, stored);
    BuildsUnlessZero(script, Dimensions(script), Drafts(script), Weights(script), SplitsOf(script), limits);
    SentIsAccepted(Dimensions(script), Drafts(script), Weights(script), SplitsOf(script), limits);
  }

  lemma {:induction false} BuildsUnlessZero(script: ChecklistScript, ds: seq<Dimension>, gens: seq<seq<DraftQuestion>>, ws: seq<Weight>,
                                            ss: seq<SplitQuestions>, limits: ChecklistLimits)
    requires Answered(ds, gens, ws, ss, limits) && WeightSum(ws) <= limits.WithDefaults().maxFinalQuestions && ws == Weights(script)
    ensures Passed(AtBuild, limits, script) <==> Buildable(ds, FanIn(ds, gens), ws, ss, limits)
  {
    BuildableIff(ds, gens, ws, ss, limits);
    BuildPassed(limits, script);
  }

  lemma BuildPassed(limits: ChecklistLimits, script: ChecklistScript)
    ensures Passed(AtBuild, limits, script) <==> WeightSum(Weights(script)) > 0
  {
  }

  /** Each split uses up at least 2 of the bounded sum of weights. */
  lemma {:induction false} SplitsAreBounded(cs: seq<CandidateQuestion>, ws: seq<Weight>, limits: ChecklistLimits)
    requires WeightsOk(cs, ws, limits)
    ensures 2 * |ToSplit(cs, ws)| <= WeightSum(ws)
  {
    AlignedIsPermutation(cs, ws);
    WeightSumPermutation(Aligned(cs, ws), ws);
    SplitsInPrefix(cs, ws, |cs|);
    assert cs[..|cs|] == cs && Aligned(cs, ws)[..|cs|] == Aligned(cs, ws);
  }

  lemma {:induction false} SplitsInPrefix(cs: seq<CandidateQuestion>, ws: seq<Weight>, n: nat)
    requires n <= |cs| && CandidateIds(cs) <= WeightIds(ws)
    ensures 2 * |ToSplit(cs[..n], ws)| <= WeightSum(Aligned(cs, ws)[..n])
  {
    if n > 0 {
      var r := Aligned(cs, ws);
      assert cs[..n][..n - 1] == cs[..n - 1] && r[..n][..n - 1] == r[..n - 1];
      SplitsInPrefix(cs, ws, n - 1);
    }
  }

  lemma {:induction false} GeneratesAreBounded(script: ChecklistScript, limits: ChecklistLimits, stored: set<string>)
    requires ScriptOk(script, limits, stored) && Answer(script.analyze).Success?
    ensures TotalUsed(Generates(script, Dimensions(script))) <= MAX_ATTEMPTS * limits.WithDefaults().maxDimensions
  {
    DimensionsAnswered(script, limits, stored);
    TotalUsedBounded(Generates(script, Dimensions(script)));
  }

  lemma {:induction false} SplitsAskedAreBounded(script: ChecklistScript, limits: ChecklistLimits, stored: set<string>)
    requires ScriptOk(script, limits, stored) && Passed(AtWeights, limits, script)
    ensures TotalUsed(Splits(script, Candidates(script), Weights(script))) <= MAX_ATTEMPTS * (limits.WithDefaults().maxFinalQuestions / 2)
  {
    WeightsAnswered(script, limits, stored);
    SplitsAreBounded(Candidates(script), Weights(script), limits);
    TotalUsedBounded(Splits(script, Candidates(script), Weights(script)));
    HalfOf(|ToSplit(Candidates(script), Weights(script))|, limits.WithDefaults().maxFinalQuestions);
  }

  lemma HalfOf(n: nat, max: int)
    requires 2 * n <= max
    ensures n <= max / 2
  {
  }

  /** However the workflow ends, its attempts are bounded. */
  lemma {:induction false} AttemptsAreBounded(stage: Stage, script: ChecklistScript, limits: ChecklistLimits, stored: set<string>)
    requires ScriptOk(script, limits, stored) && Cleared(stage, limits, script)
    ensures AttemptsThrough(stage, script) <=
            MAX_ATTEMPTS * (4 + limits.WithDefaults().maxDimensions + limits.WithDefaults().maxFinalQuestions / 2)
  {
    if stage.Rank() > AtDimensions.Rank() {
      assert Passed(AtDimensions, limits, script);
      GeneratesAreBounded(script, limits, stored);
    }
    if stage.Rank() > AtWeights.Rank() {
      assert Passed(AtWeights, limits, script);
      SplitsAskedAreBounded(script, limits, stored);
    }
    AttemptsAdded(stage, script);
  }

  /** The attempts of all stages, of which some may not be reached. */
  lemma {:induction false} AttemptsAdded(stage: Stage, script: ChecklistScript)
    ensures var generating, splitting :=
              TotalUsed(Generates(script, Dimensions(script))), TotalUsed(Splits(script, Candidates(script), Weights(script)));
            AttemptsThrough(stage, script) <= (if stage.Rank() <= 3 then 2 else if stage.Rank() <= 6 then 3 else 4) * MAX_ATTEMPTS
              + (if stage.Rank() > AtDimensions.Rank() then generating else 0)
              + (if stage.Rank() > AtWeights.Rank() then splitting else 0)
    decreases stage.Rank()
  {
    match stage {
      case AtDimensions => AttemptsAdded(AtChecklistInputs, script);
      case AtQuestions => AttemptsAdded(AtDimensions, script);
      case AtWeights => AttemptsAdded(AtQuestions, script);
      case AtSplits => AttemptsAdded(AtWeights, script);
      case AtBuild => AttemptsAdded(AtSplits, script);
      case AtChecklistSuccess => AttemptsAdded(AtBuild, script);
      case _ =>
    }
  }


  /** A stopped workflow has a valid cause to record. */
  lemma {:induction false} StopIsRecordable(stopped: Stopped, checklistID: string, script: ChecklistScript, limits: ChecklistLimits,
                                            stored: set<string>)
    requires limits.Valid() ==> ScriptOk(script, limits, stored)
    requires StoppedFor(stopped, checklistID, limits, script)
    ensures CauseOk(stopped.cause, stored)
  {
    assert stopped.stage != AtLimits ==> Passed(AtLimits, limits, script);
    match stopped.stage {
      case AtChecklistInputs => FailedAnswer(script.inputs, stored);
      case AtDimensions => FailedAnswer(script.analyze, stored);
      case AtQuestions =>
        var i :| 0 <= i < |Generated(script)| && Generated(script)[i] == Failure(stopped.cause);
        assert GeneratedOk(script.generate(Dimensions(script)[i]), limits, stored);
        FailedAnswer(script.generate(Dimensions(script)[i]), stored);
      case AtWeights =>
        assert WeighedOk(script.weigh(Candidates(script)), Candidates(script), limits, stored);
        if Weighed(script).Failure? {
          FailedAnswer(script.weigh(Candidates(script)), stored);
        }
      case AtSplits =>
        var i :| 0 <= i < |SplitFutures(script)| && SplitFutures(script)[i] == Failure(stopped.cause);
        var c := ToSplit(Candidates(script), Weights(script))[i];
        var w := WeightOf(Weights(script), c.id);
        assert SplitAttemptsOk(script.split(c, w), c, w, stored);
        FailedAnswer(script.split(c, w), stored);
      case AtChecklistSuccess =>
        assert ErrorsOk(script.succeed(PayloadOf(script)), stored);
        FailedAnswer(script.succeed(PayloadOf(script)), stored);
      case _ =>
    }
  }

  // ---------------------------------------------------------------- the workflow

  /** The first loop over the dimensions: every question activity is started. */
  method StartGenerating(ds: seq<Dimension>, script: ChecklistScript) returns (futures: seq<Future<seq<DraftQuestion>>>, used: nat)
    ensures futures == Answers(Generates(script, ds)) && used == TotalUsed(Generates(script, ds))
  {
    ghost var asked := Generates(script, ds);
    futures, used := [], 0;
    for i := 0 to |ds|
      invariant |futures| == i && used == TotalUsed(asked[..i])
      invariant forall k | 0 <= k < i :: futures[k] == Answer(asked[k])
    {
      TotalUsedStep(asked, i);
      var future, n := ExecuteActivity(script.generate(ds[i]));
      futures, used := futures + [future], used + n;
    }
    assert asked[..|ds|] == asked;
  }

  /** The second loop: answers are awaited in dimension order and numbered through. */
  method CollectCandidates(ds: seq<Dimension>, futures: seq<Future<seq<DraftQuestion>>>)
    returns (r: Result<seq<CandidateQuestion>, Cause>)
    requires |futures| == |ds|
    ensures r.Success? <==> AllSucceeded(futures)
    ensures r.Success? ==> r.value == FanIn(ds, Values(futures, []))
    ensures r.Failure? ==> FirstFailure(futures, r.error)
  {
    var candidates := [];
    ghost var gens := Values(futures, []);
    for i := 0 to |ds|
      invariant AllSucceeded(futures[..i])
      invariant candidates == FanIn(ds[..i], gens[..i])
    {
      match futures[i] {
        case Failure(cause) => return Failure(cause);
        case Success(generated) =>
          var numbered := AssignCandidateQuestionIDs(ds[i].id, |candidates| + 1, generated);
          assert ds[..i + 1][..i] == ds[..i] && gens[..i + 1][..i] == gens[..i];
          candidates := candidates + numbered;
      }
    }
    assert ds[..|ds|] == ds && gens[..|ds|] == gens && futures[..|ds|] == futures;
    r := Success(candidates);
  }

  /** The first loop over the candidates: those of weight above 1 are split. */
  method StartSplitting(cs: seq<CandidateQuestion>, ws: seq<Weight>, script: ChecklistScript)
    returns (futures: seq<Future<SplitQuestions>>, used: nat)
    ensures futures == Answers(Splits(script, cs, ws)) && used == TotalUsed(Splits(script, cs, ws))
  {
    var weightByCandidateID := IndexBy(ws, WeightKey);
    futures, used := [], 0;
    for i := 0 to |cs|
      invariant futures == Answers(Splits(script, cs[..i], ws)) && used == TotalUsed(Splits(script, cs[..i], ws))
    {
      var weight := WeightAt(weightByCandidateID, cs[i].id);
      WeightLookedUp(ws, cs[i].id);
      SplitsStep(script, cs, ws, i);
      if weight <= 1 {
        continue;
      }
      var future, n := ExecuteActivity(script.split(cs[i], weight));
      futures, used := futures + [future], used + n;
    }
    assert cs[..|cs|] == cs;
  }

  lemma {:induction false} SplitsStep(script: ChecklistScript, cs: seq<CandidateQuestion>, ws: seq<Weight>, i: nat)
    requires i < |cs|
    ensures var before, after, w := Splits(script, cs[..i], ws), Splits(script, cs[..i + 1], ws), WeightOf(ws, cs[i].id);
            && after == (if w > 1 then before + [script.split(cs[i], w)] else before)
            && Answers(after) == (if w > 1 then Answers(before) + [Answer(script.split(cs[i], w))] else Answers(before))
            && TotalUsed(after) == (if w > 1 then TotalUsed(before) + Used(script.split(cs[i], w)) else TotalUsed(before))
  {
    assert cs[..i + 1][..i] == cs[..i];
    var before, after, w := Splits(script, cs[..i], ws), Splits(script, cs[..i + 1], ws), WeightOf(ws, cs[i].id);
    if w > 1 {
      assert after == before + [script.split(cs[i], w)];
      assert after[..|after| - 1] == before;
    } else {
      assert after == before;
    }
  }

  method CollectSplits(futures: seq<Future<SplitQuestions>>) returns (r: Result<seq<SplitQuestions>, Cause>)
    ensures r.Success? <==> AllSucceeded(futures)
    ensures r.Success? ==> r.value == Values(futures, NO_SPLIT)
    ensures r.Failure? ==> FirstFailure(futures, r.error)
  {
    var splits := [];
    for i := 0 to |futures|
      invariant AllSucceeded(futures[..i])
      invariant splits == Values(futures, NO_SPLIT)[..i]
    {
      match futures[i] {
        case Failure(cause) => return Failure(cause);
        case Success(split) => splits := splits + [split];
      }
    }
    assert futures[..|futures|] == futures;
    r := Success(splits);
  }

  /** From the task to the candidates: analysis, fan-out, fan-in, and the two validations in between. */
  method FindCandidates(checklistID: string, limits: ChecklistLimits, script: ChecklistScript, ghost stored: set<string>)
    returns (r: Result<(seq<Dimension>, seq<CandidateQuestion>), Stopped>, used: nat)
    requires ScriptOk(script, limits, stored) && limits.Valid()
    ensures r.Success? ==> Cleared(AtWeights, limits, script) && r.value == (Dimensions(script), Candidates(script))
    ensures r.Failure? ==> StoppedFor(r.error, checklistID, limits, script)
    ensures r.Failure? ==> r.error.stage in {AtChecklistInputs, AtDimensions, AtQuestions}
    ensures used == AttemptsThrough(if r.Success? then AtQuestions else r.error.stage, script)
  {
    ClearedNext(AtLimits, AtChecklistInputs, limits, script);
    ClearedNext(AtChecklistInputs, AtDimensions, limits, script);
    ClearedNext(AtDimensions, AtQuestions, limits, script);
    ClearedNext(AtQuestions, AtWeights, limits, script);
    var written, n := ExecuteActivity(script.inputs);
    used := n;
    if written.Failure? {
      return Failure(Stopped(AtChecklistInputs, written.error)), used;
    }
    var analyzed;
    analyzed, n := ExecuteActivity(script.analyze);
    used := used + n;
    if analyzed.Failure? {
      return Failure(Stopped(AtDimensions, analyzed.error)), used;
    }
    var ds := analyzed.value;
    var err := ValidateDimensions(ds, limits);
    DimensionsAnswered(script, limits, stored);
    match err {
      case Some(e) => return Failure(Stopped(AtDimensions, Own(e))), used;
      case None =>
    }
    var futures;
    futures, n := StartGenerating(ds, script);
    used := used + n;
    var collected := CollectCandidates(ds, futures);
    if collected.Failure? {
      return Failure(Stopped(AtQuestions, collected.error)), used;
    }
    DraftsAnswered(script, limits, stored);
    FanInOk(ds, Drafts(script), limits);
    err := ValidateCandidateQuestions(ds, collected.value, limits);
    match err {
      case Some(e) => return Failure(Stopped(AtQuestions, Own(e))), used;
      case None => return Success((ds, collected.value)), used;
    }
  }

  /** The weights, validated again, and the projected number of questions. */
  method WeighCandidates(checklistID: string, cs: seq<CandidateQuestion>, limits: ChecklistLimits, script: ChecklistScript,
                         ghost stored: set<string>)
    returns (r: Result<seq<Weight>, Stopped>, used: nat)
    requires ScriptOk(script, limits, stored) && Cleared(AtWeights, limits, script) && cs == Candidates(script)
    ensures r.Success? ==> Cleared(AtSplits, limits, script) && r.value == Weights(script)
    ensures r.Failure? ==> StoppedFor(r.error, checklistID, limits, script) && r.error.stage == AtWeights
    ensures AttemptsThrough(AtQuestions, script) + used == AttemptsThrough(AtWeights, script)
  {
    ClearedNext(AtWeights, AtSplits, limits, script);
    var weighed;
    weighed, used := ExecuteActivity(script.weigh(cs));
    if weighed.Failure? {
      return Failure(Stopped(AtWeights, weighed.error)), used;
    }
    var ws := weighed.value;
    WeightsAnswered(script, limits, stored);
    var err := ValidateWeights(cs, ws, limits);
    match err {
      case Some(e) => return Failure(Stopped(AtWeights, Own(e))), used;
      case None =>
    }
    var projected;
    projected, err := ValidateProjectedFinalQuestionCount(checklistID, ws, limits);
    match err {
      case Some(e) => return Failure(Stopped(AtWeights, Own(e))), used;
      case None => return Success(ws), used;
    }
  }

  /** Fan-out and fan-in of the splits. */
  method SplitCandidates(checklistID: string, cs: seq<CandidateQuestion>, ws: seq<Weight>, limits: ChecklistLimits, script: ChecklistScript)
    returns (r: Result<seq<SplitQuestions>, Stopped>, used: nat)
    requires Cleared(AtSplits, limits, script) && cs == Candidates(script) && ws == Weights(script)
    ensures r.Success? ==> Cleared(AtBuild, limits, script) && r.value == SplitsOf(script)
    ensures r.Failure? ==> StoppedFor(r.error, checklistID, limits, script) && r.error.stage == AtSplits
    ensures AttemptsThrough(AtWeights, script) + used == AttemptsThrough(AtSplits, script)
  {
    ClearedNext(AtSplits, AtBuild, limits, script);
    var futures;
    futures, used := StartSplitting(cs, ws, script);
    var collected := CollectSplits(futures);
    match collected {
      case Failure(cause) =>
        OneFirstFailure(futures, cause, cause);
        return Failure(Stopped(AtSplits, cause)), used;
      case Success(ss) => return Success(ss), used;
    }
  }

  /** The expansion of answered weights and splits: it stops only when every weight is 0. */
  method BuildPayload(checklistID: string, ds: seq<Dimension>, cs: seq<CandidateQuestion>, ws: seq<Weight>, ss: seq<SplitQuestions>,
                      limits: ChecklistLimits, script: ChecklistScript, ghost stored: set<string>)
    returns (r: Result<Content, Stopped>)
    requires ScriptOk(script, limits, stored) && Cleared(AtBuild, limits, script)
    requires ds == Dimensions(script) && cs == Candidates(script) && ws == Weights(script) && ss == SplitsOf(script)
    ensures r.Success? ==> Cleared(AtChecklistSuccess, limits, script) && r.value == PayloadOf(script)
    ensures r.Failure? ==> StoppedFor(r.error, checklistID, limits, script) && r.error.stage == AtBuild
  {
    ClearedNext(AtBuild, AtChecklistSuccess, limits, script);
    BuildInputs(script, limits, stored);
    var final := BuildFinalChecklist(ds, cs, ws, ss, limits);
    match final {
      case Failure(e) => return Failure(Stopped(AtBuild, Own(e)));
      case Success(questions) => return Success(Content(ds, cs, ws, questions));
    }
  }

  /** What the expansion is given. */
  lemma {:induction false} BuildInputs(script: ChecklistScript, limits: ChecklistLimits, stored: set<string>)
    requires ScriptOk(script, limits, stored) && Cleared(AtBuild, limits, script)
    ensures var ds, cs, ws, ss := Dimensions(script), Candidates(script), Weights(script), SplitsOf(script);
            && InputsOk(ds, cs, ws, limits) && SplitsFit(cs, ws, ss)
            && (Buildable(ds, cs, ws, ss, limits) <==> Passed(AtBuild, limits, script))
  {
    EverythingAnswered(script, limits, stored);
    BuildsUnlessZero(script, Dimensions(script), Drafts(script), Weights(script), SplitsOf(script), limits);
    AnswersFit(Dimensions(script), Drafts(script), Weights(script), SplitsOf(script), limits);
  }

  /** From the candidates to the payload. */
  method CompileCandidates(checklistID: string, ds: seq<Dimension>, cs: seq<CandidateQuestion>, limits: ChecklistLimits,
                           script: ChecklistScript, ghost stored: set<string>)
    returns (r: Result<Content, Stopped>, used: nat)
    requires ScriptOk(script, limits, stored) && Cleared(AtWeights, limits, script)
    requires ds == Dimensions(script) && cs == Candidates(script)
    ensures r.Success? ==> Cleared(AtChecklistSuccess, limits, script) && r.value == PayloadOf(script)
    ensures r.Failure? ==> StoppedFor(r.error, checklistID, limits, script) && r.error.stage in {AtWeights, AtSplits, AtBuild}
    ensures AttemptsThrough(AtQuestions, script) + used == AttemptsThrough(if r.Success? then AtBuild else r.error.stage, script)
  {
    var weighed;
    weighed, used := WeighCandidates(checklistID, cs, limits, script, stored);
    if weighed.Failure? {
      return Failure(weighed.error), used;
    }
    var splits, n := SplitCandidates(checklistID, cs, weighed.value, limits, script);
    used := used + n;
    if splits.Failure? {
      return Failure(splits.error), used;
    }
    r := BuildPayload(checklistID, ds, cs, weighed.value, splits.value, limits, script, stored);
  }

  /** The whole compilation: the payload the script amounts to if every stage was passed, otherwise the stage that was not. */
  method CompileChecklist(checklistID: string, limits: ChecklistLimits, script: ChecklistScript, ghost stored: set<string>)
    returns (r: Result<Content, Stopped>, used: nat)
    requires limits.Valid() ==> ScriptOk(script, limits, stored)
    ensures r.Success? <==> Cleared(AtChecklistSuccess, limits, script)
    ensures r.Success? ==> r.value == PayloadOf(script) && ContentArgsOk(r.value, limits) && DistinctOrdinals(r.value)
    ensures r.Failure? ==> StoppedFor(r.error, checklistID, limits, script)
    ensures used == AttemptsThrough(if r.Success? then AtBuild else r.error.stage, script)
  {
    if !limits.Valid() {
      NotCleared(AtLimits, limits, script);
      return Failure(Stopped(AtLimits, OwnError(OtherError))), 0;
    }
    var found, n := FindCandidates(checklistID, limits, script, stored);
    used := n;
    if found.Failure? {
      NotCleared(found.error.stage, limits, script);
      return Failure(found.error), used;
    }
    r, n := CompileCandidates(checklistID, found.value.0, found.value.1, limits, script, stored);
    used := used + n;
    if r.Failure? {
      NotCleared(r.error.stage, limits, script);
    } else {
      PayloadIsAccepted(script, limits, stored);
    }
  }

  lemma NotCleared(stage: Stage, limits: ChecklistLimits, script: ChecklistScript)
    requires !Passed(stage, limits, script) && stage.Rank() < AtChecklistSuccess.Rank()
    ensures !Cleared(AtChecklistSuccess, limits, script)
  {
  }

  /** The stage a workflow ends in. */
  function EndStage(stopped: Option<Stopped>, last: Stage): Stage {
    if stopped.Some? then stopped.value.stage else last
  }

  /** The activity that stores the payload. */
  method StorePayload(c: Content, checklistID: string, limits: ChecklistLimits, script: ChecklistScript)
    returns (stopped: Option<Stopped>, used: nat)
    requires Cleared(AtChecklistSuccess, limits, script) && c == PayloadOf(script)
    ensures stopped.None? <==> Completed(limits, script)
    ensures stopped.Some? ==> StoppedFor(stopped.value, checklistID, limits, script) && stopped.value.stage == AtChecklistSuccess
    ensures AttemptsThrough(AtBuild, script) + used == AttemptsThrough(AtChecklistSuccess, script)
  {
    var ended;
    ended, used := ExecuteActivity(script.succeed(c));
    stopped := if ended.Failure? then Some(Stopped(AtChecklistSuccess, ended.error)) else None;
  }

  /** Compilation, and storing the payload. */
  method CompileAndStore(checklistID: string, limits: ChecklistLimits, script: ChecklistScript, ghost stored: set<string>)
    returns (payload: Option<Content>, stopped: Option<Stopped>, used: nat)
    requires limits.Valid() ==> ScriptOk(script, limits, stored)
    ensures payload == if Cleared(AtChecklistSuccess, limits, script) then Some(PayloadOf(script)) else None
    ensures payload.Some? ==> ContentArgsOk(payload.value, limits) && DistinctOrdinals(payload.value)
    ensures stopped.None? <==> Completed(limits, script)
    ensures stopped.Some? ==> StoppedFor(stopped.value, checklistID, limits, script)
    ensures used == AttemptsThrough(EndStage(stopped, AtChecklistSuccess), script)
  {
    var compiled;
    compiled, used := CompileChecklist(checklistID, limits, script, stored);
    match compiled {
      case Failure(s) => payload, stopped := None, Some(s);
      case Success(c) =>
        payload := Some(c);
        var n;
        stopped, n := StorePayload(c, checklistID, limits, script);
        used := used + n;
    }
  }

  /** What a checklist workflow returns, sends, stops for and uses up: all decided by the script. */
  ghost predicate ChecklistEnds(checklistID: string, limits: ChecklistLimits, script: ChecklistScript,
                                verdict: Verdict, payload: Option<Content>, stopped: Option<Stopped>, used: nat)
  {
    && payload == (if Cleared(AtChecklistSuccess, limits, script) then Some(PayloadOf(script)) else None)
    && (stopped.None? <==> Completed(limits, script)) && (verdict.Nil? <==> stopped.None?)
    && match stopped
       case None => used == AttemptsThrough(AtChecklistSuccess, script)
       case Some(s) =>
         var d := WorkflowDetails(s.cause, ChecklistWorkflowID(checklistID), s.stage.Name());
         && StoppedFor(s, checklistID, limits, script)
         && verdict == (if Answer(script.fail(d)).Success? then Recorded(d) else NotRecorded)
         && used == AttemptsThrough(s.stage, script) + Used(script.fail(d))
  }

  /** nil exactly when every stage was passed, the last one by the activity that stores the payload. Otherwise the first
      stage that was not passed is recorded, with a record the store accepts, and its cause is returned exactly when that
      was stored. Bounded attempts in every case. */
  method CreateChecklistWorkflow(checklistID: string, limits: ChecklistLimits, script: ChecklistScript, ghost stored: set<string>)
    returns (verdict: Verdict, payload: Option<Content>, stopped: Option<Stopped>, used: nat)
    requires limits.Valid() ==> ScriptOk(script, limits, stored)
    ensures ChecklistEnds(checklistID, limits, script, verdict, payload, stopped, used)
    ensures payload.Some? ==> ContentArgsOk(payload.value, limits) && DistinctOrdinals(payload.value)
    ensures verdict.Recorded? ==> RecordOk(verdict.details, stored)
    ensures used <= MAX_ATTEMPTS * (5 + limits.WithDefaults().maxDimensions + limits.WithDefaults().maxFinalQuestions / 2)
  {
    payload, stopped, used := CompileAndStore(checklistID, limits, script, stored);
    EndIsBounded(stopped, checklistID, limits, script, stored);
    match stopped {
      case None => verdict := Nil;
      case Some(s) =>
        StopIsRecordable(s, checklistID, script, limits, stored);
        var n;
        verdict, n := RecordFailure(ChecklistWorkflowID(checklistID), s, script.fail, stored);
        used := used + n;
    }
  }

  lemma {:induction false} EndIsBounded(stopped: Option<Stopped>, checklistID: string, limits: ChecklistLimits,
                                        script: ChecklistScript, stored: set<string>)
    requires limits.Valid() ==> ScriptOk(script, limits, stored)
    requires stopped.None? ==> Completed(limits, script)
    requires stopped.Some? ==> StoppedFor(stopped.value, checklistID, limits, script)
    ensures AttemptsThrough(EndStage(stopped, AtChecklistSuccess), script) <=
            MAX_ATTEMPTS * (4 + limits.WithDefaults().maxDimensions + limits.WithDefaults().maxFinalQuestions / 2)
  {
    var stage := EndStage(stopped, AtChecklistSuccess);
    assert stage != AtLimits ==> Passed(AtLimits, limits, script);
    if limits.Valid() {
      AttemptsAreBounded(stage, script, limits, stored);
    }
  }

  /** The script leaves no choice: verdict, payload, stop and number of attempts are all determined. */
  lemma {:induction false} EndIsUnique(checklistID: string, limits: ChecklistLimits, script: ChecklistScript,
                                       verdict: Verdict, payload: Option<Content>, stopped: Option<Stopped>, used: nat,
                                       verdict': Verdict, payload': Option<Content>, stopped': Option<Stopped>, used': nat)
    requires ChecklistEnds(checklistID, limits, script, verdict, payload, stopped, used)
    requires ChecklistEnds(checklistID, limits, script, verdict', payload', stopped', used')
    ensures verdict == verdict' && payload == payload' && stopped == stopped' && used == used'
  {
    if stopped.Some? && stopped'.Some? {
      OneEnding(stopped.value, stopped'.value, checklistID, limits, script);
    }
  }

  /** Whatever record a workflow leaves is one the store accepts, follows its class and refers to stored artifacts only. */
  lemma {:induction false} RecordedIsOk(checklistID: string, limits: ChecklistLimits, script: ChecklistScript, stored: set<string>,
                                        verdict: Verdict, payload: Option<Content>, stopped: Option<Stopped>, used: nat)
    requires limits.Valid() ==> ScriptOk(script, limits, stored)
    requires ChecklistEnds(checklistID, limits, script, verdict, payload, stopped, used)
    ensures verdict.Recorded? ==> RecordOk(verdict.details, stored)
  {
    if stopped.Some? {
      StopIsRecordable(stopped.value, checklistID, script, limits, stored);
      stopped.value.stage.NameIsNotBlank();
      WorkflowDetailsOk(stopped.value.cause, stored, ChecklistWorkflowID(checklistID), stopped.value.stage.Name());
    }
  }
}
