/** The values of the evaluation core: drafts, dimensions, candidates, weights, splits, questions, votes and scores. */
module Types {
  import opened Text

  const ANSWER_YES := "yes"
  const ANSWER_NO := "no"

  const DEFAULT_MAX_DIMENSIONS := 6
  const DEFAULT_MAX_CANDIDATES_PER_DIMENSION := 8
  const DEFAULT_MAX_SPLIT_COUNT := 4
  const DEFAULT_MAX_FINAL_QUESTIONS := 64
  const DEFAULT_MAX_EVALUATION_RUNS := 5

  datatype ErrorCode =
    | InvalidQuestionGeneration
    | InvalidDimensionAnalysis
    | InvalidWeights
    | InvalidSplits
    | InvalidFinalChecklist
    | InvalidJudgments
  {
    function Name(): string {
      match this
      case InvalidQuestionGeneration => "invalid_question_generation"
      case InvalidDimensionAnalysis => "invalid_dimension_analysis"
      case InvalidWeights => "invalid_weights"
      case InvalidSplits => "invalid_splits"
      case InvalidFinalChecklist => "invalid_final_checklist"
      case InvalidJudgments => "invalid_judgments"
    }

    lemma NameIsNotBlank()
      ensures !Blank(Name())
    {
      assert !IsSpace(Name()[0]);
    }

    /** The codes as clients see them. */
    lemma NameIs()
      ensures InvalidQuestionGeneration? ==> Name() == "invalid_question_generation"
      ensures InvalidDimensionAnalysis? ==> Name() == "invalid_dimension_analysis"
      ensures InvalidWeights? ==> Name() == "invalid_weights"
      ensures InvalidSplits? ==> Name() == "invalid_splits"
      ensures InvalidFinalChecklist? ==> Name() == "invalid_final_checklist"
      ensures InvalidJudgments? ==> Name() == "invalid_judgments"
    {
    }
  }

  datatype LimitDiagnostic =
    LimitDiagnostic(limitName: string, configuredLimit: int, observedCount: int, checklistID: string, stage: string)

  /** Which check failed: the constant part of an error message. The ids and counts it interpolates are not modelled. */
  datatype Fault =
    | Empty
    | OverLimit
    | BlankText
    | DuplicateId
    | UnknownId
    | MissingId
    | BadOrdinal
    | DuplicateOrdinal
    | DimensionMismatch
    | OutOfRange
    | WrongCount
    | BadAnswer
    | RunOutOfRange
    | ScoreMismatch
  {
    function Reason(): string {
      match this
      case Empty => "the list is empty"
      case OverLimit => "a limit is exceeded"
      case BlankText => "a text is blank"
      case DuplicateId => "an id is repeated"
      case UnknownId => "an id is unknown"
      case MissingId => "an id is missing"
      case BadOrdinal => "an ordinal is not positive"
      case DuplicateOrdinal => "an ordinal is repeated"
      case DimensionMismatch => "the dimension is not the one of the source candidate"
      case OutOfRange => "a weight is out of range"
      case WrongCount => "the number of questions is wrong"
      case BadAnswer => "an answer is neither yes nor no"
      case RunOutOfRange => "run_index is out of range"
      case ScoreMismatch => "score does not match judgments"
    }

    function Message(): string {
      "check failed: " + Reason()
    }

    lemma MessageIsNotBlank()
      ensures !Blank(Message())
    {
      assert Message()[0] == 'c';
    }
  }

  datatype SemanticError = SemanticError(code: ErrorCode, fault: Fault, diagnostics: seq<LimitDiagnostic>)

  function Semantic(code: ErrorCode, fault: Fault): SemanticError {
    SemanticError(code, fault, [])
  }

  function LimitExceeded(code: ErrorCode, d: LimitDiagnostic): SemanticError {
    SemanticError(code, OverLimit, [d])
  }

  /** The errors of the evaluation core: semantic ones, and plain ones such as a bad configuration value. */
  datatype CoreError = SemanticFailure(semantic: SemanticError) | PlainError

  datatype ChecklistLimits = ChecklistLimits(
    maxDimensions: int, maxCandidatesPerDimension: int, maxSplitCount: int, maxFinalQuestions: int)
  {
    function WithDefaults(): (l: ChecklistLimits)
      ensures l.maxDimensions > 0 && l.maxCandidatesPerDimension > 0 && l.maxSplitCount > 0 && l.maxFinalQuestions > 0
    {
      ChecklistLimits(
        if maxDimensions <= 0 then DEFAULT_MAX_DIMENSIONS else maxDimensions,
        if maxCandidatesPerDimension <= 0 then DEFAULT_MAX_CANDIDATES_PER_DIMENSION else maxCandidatesPerDimension,
        if maxSplitCount <= 0 then DEFAULT_MAX_SPLIT_COUNT else maxSplitCount,
        if maxFinalQuestions <= 0 then DEFAULT_MAX_FINAL_QUESTIONS else maxFinalQuestions)
    }

    /** `ChecklistLimits.Validate` returns no error. */
    predicate Valid() {
      WithDefaults().maxSplitCount <= DEFAULT_MAX_SPLIT_COUNT
    }

    /** A limit that is given is kept, one that is not gets its default; only the split limit can be invalid. */
    lemma DefaultsFillGaps()
      ensures WithDefaults().maxDimensions == if maxDimensions > 0 then maxDimensions else 6
      ensures WithDefaults().maxCandidatesPerDimension == if maxCandidatesPerDimension > 0 then maxCandidatesPerDimension else 8
      ensures WithDefaults().maxSplitCount == if maxSplitCount > 0 then maxSplitCount else 4
      ensures WithDefaults().maxFinalQuestions == if maxFinalQuestions > 0 then maxFinalQuestions else 64
      ensures WithDefaults().WithDefaults() == WithDefaults()
      ensures Valid() <==> maxSplitCount <= 4
    {
    }
  }

  datatype DraftDimension = DraftDimension(name: string, rubric: string, rationale: string)

  datatype Dimension = Dimension(id: string, ordinal: int, name: string, rubric: string, rationale: string)

  datatype DraftQuestion = DraftQuestion(rationale: string, question: string)

  datatype CandidateQuestion =
    CandidateQuestion(id: string, dimensionID: string, ordinal: int, rationale: string, question: string)

  datatype Weight = Weight(candidateQuestionID: string, rationale: string, weight: int)

  datatype SplitQuestions = SplitQuestions(candidateQuestionID: string, questions: seq<DraftQuestion>)

  datatype FinalQuestion = FinalQuestion(
    id: string, ordinal: int, dimensionID: string, sourceCandidateID: string, rationale: string, question: string)

  datatype Judgment = Judgment(questionID: string, evidence: string, answer: string)

  datatype RunJudgment = RunJudgment(runIndex: int, questionID: string, evidence: string, answer: string)

  datatype JudgmentRun = JudgmentRun(runIndex: int, evidence: string, answer: string)

  datatype AggregatedJudgment = AggregatedJudgment(questionID: string, runs: seq<JudgmentRun>, answer: string)

  datatype ScoreResult = ScoreResult(
    satisfiedPoints: int, totalPossiblePoints: int, checklistPassRate: real, failedQuestionIDs: seq<string>)

  datatype AggregationResult = AggregationResult(judgments: seq<AggregatedJudgment>, score: ScoreResult)

  /** `ValidateEvaluationRuns` returns no error. */
  predicate ValidEvaluationRuns(evaluationRuns: int, maxEvaluationRuns: int) {
    var max := if maxEvaluationRuns <= 0 then DEFAULT_MAX_EVALUATION_RUNS else maxEvaluationRuns;
    evaluationRuns > 0 && evaluationRuns % 2 != 0 && evaluationRuns <= max
  }

  /** Without a maximum of its own the service allows 1, 3 and 5 runs; with one, every odd number up to it. */
  lemma EvaluationRunsAllowed(evaluationRuns: int, maxEvaluationRuns: int)
    ensures maxEvaluationRuns <= 0 ==> (ValidEvaluationRuns(evaluationRuns, maxEvaluationRuns) <==> evaluationRuns in {1, 3, 5})
    ensures maxEvaluationRuns > 0 ==>
              (ValidEvaluationRuns(evaluationRuns, maxEvaluationRuns) <==>
               1 <= evaluationRuns <= maxEvaluationRuns && evaluationRuns % 2 == 1)
    ensures ValidEvaluationRuns(evaluationRuns, evaluationRuns) <==> evaluationRuns > 0 && evaluationRuns % 2 == 1
  {
  }
}
