/** The LLM activities: whatever the model answers, what an activity hands to its workflow has passed its validation. */
module Activities {
  import opened Common
  import opened Types
  import opened Validate
  import opened Ids
  import opened Failures
  import opened Evidence

  /** The errors of the LLM client carry a message. */
  predicate CallOk(c: LlmCall) {
    PlainCall(c) && (c.llmError.Some? ==> ErrorOk(c.llmError.value))
  }

  /** The model was asked, its answer arrived and the evidence is known to be stored. */
  predicate AnswerArrived(c: LlmCall) {
    c.llmError.None? && c.Complete()
  }

  /** Why no answer arrived: the evidence is not known to be stored, or the model's client failed. */
  function CallError(c: LlmCall): ErrorValue
    requires !AnswerArrived(c)
  {
    if c.Complete() then c.llmError.value else OtherError
  }

  /** An activity's error on a call, referring to what the call has stored: the call's own error, or if its answer arrived
      that of the validation of the answer, with its code. */
  ghost predicate FailedOn(e: ActivityError, c: LlmCall, code: ErrorCode) {
    if AnswerArrived(c) then exists s: SemanticError :: s.code == code && e == ToTemporalError(CoreSemanticError(s), c.attempt, References(c))
    else e == ToTemporalError(CallError(c), c.attempt, References(c))
  }

  /** An error on a call is a clean one as long as what the call claims is stored. Invalid output is not asked for again, and
      the record carries the code of the validation that objects to it. */
  lemma {:induction false} FailsCleanly(e: ActivityError, c: LlmCall, code: ErrorCode, stored: set<string>)
    requires FailedOn(e, c, code) && CallOk(c) && forall i | 0 <= i < |References(c)| :: References(c)[i] in stored
    ensures CleanError(e, stored)
    ensures AnswerArrived(c) ==> !Retries(e) && e.details.errorCode == code.Name()
  {
    ReferencesAreStored(map[], c);
    if AnswerArrived(c) {
      var s: SemanticError :| s.code == code && e == ToTemporalError(CoreSemanticError(s), c.attempt, References(c));
      CleanErrorOf(CoreSemanticError(s), c.attempt, References(c), stored);
    } else {
      CleanErrorOf(CallError(c), c.attempt, References(c), stored);
    }
  }

  /** An attempt whose call brought no answer is tried again exactly if the evidence is not known to be stored, or the error
      of the model's client is one to try again; an attempt whose answer arrived and is not valid never is. */
  lemma {:induction false} TriedAgainIff(e: ActivityError, c: LlmCall, code: ErrorCode)
    requires FailedOn(e, c, code)
    ensures Retries(e) <==>
            || (c.trace.requestBody != [] && !c.requestFate.Written?) || (c.trace.httpStatus != 0 && !c.responseFate.Written?)
            || (c.llmError.Some? && (c.llmError.value.OtherError? || (c.llmError.value.InfraError? && c.llmError.value.infraRetryable)))
    ensures e.details.attemptCount == if c.attempt > 0 then c.attempt else 1
  {
    if AnswerArrived(c) {
      var s: SemanticError :| s.code == code && e == ToTemporalError(CoreSemanticError(s), c.attempt, References(c));
      ErrorClassification(CoreSemanticError(s), c.attempt, References(c));
    } else {
      ErrorClassification(CallError(c), c.attempt, References(c));
    }
  }

  /** The call is worth another attempt: its evidence is not known to be stored, or the client's error is one to try again. */
  predicate AskAgain(c: LlmCall) {
    !c.Complete() || (c.llmError.Some? && (c.llmError.value.OtherError? || (c.llmError.value.InfraError? && c.llmError.value.infraRetryable)))
  }

  lemma {:induction false} EveryErrorIsClean(c: LlmCall, stored: map<string, Body>)
    requires CallOk(c) && forall i | 0 <= i < |References(c)| :: References(c)[i] in stored
    ensures forall e, code | FailedOn(e, c, code) :: CleanError(e, stored.Keys) && (Retries(e) <==> AskAgain(c))
  {
    forall e, code | FailedOn(e, c, code) ensures CleanError(e, stored.Keys) && (Retries(e) <==> AskAgain(c)) {
      FailsCleanly(e, c, code, stored.Keys);
      TriedAgainIff(e, c, code);
    }
  }

  /** `runChecklistLLM` and `runEvaluationLLM`, seen from an activity. */
  method AskModel(art: Artifacts, c: LlmCall) returns (references: seq<string>, err: Option<ActivityError>)
    requires CallOk(c)
    modifies art
    ensures art.stored == AfterCall(old(art.stored), c)
    ensures err.None? <==> AnswerArrived(c)
    ensures err.Some? ==> err.value == ToTemporalError(CallError(c), c.attempt, References(c))
    ensures err.Some? ==> CleanError(err.value, art.stored.Keys) && (Retries(err.value) <==> AskAgain(c))
    ensures references == References(c)
    ensures forall e, code | FailedOn(e, c, code) :: CleanError(e, art.stored.Keys) && (Retries(e) <==> AskAgain(c))
  {
    ghost var before := art.stored;
    references, err := art.RunLLM(c);
    ReferencesAreStored(before, c);
    EveryErrorIsClean(c, art.stored);
    assert err.Some? ==> FailedOn(err.value, c, InvalidWeights);
  }

  // What each activity hands to its workflow: a result if the answer arrived, was stored and is valid, a clean error if not.

  ghost predicate Analyzed(r: Result<seq<Dimension>, ActivityError>, c: LlmCall, out: seq<DraftDimension>,
                           limits: ChecklistLimits)
  {
    && (r.Success? <==> AnswerArrived(c) && DimensionGenerationOk(out, limits))
    && (r.Success? ==> r.value == NumberedDimensions(out) && DimensionsOk(r.value, limits))
    && (r.Failure? ==> FailedOn(r.error, c, InvalidDimensionAnalysis))
  }

  ghost predicate QuestionsGenerated(r: Result<seq<DraftQuestion>, ActivityError>, c: LlmCall, out: seq<DraftQuestion>,
                                     limits: ChecklistLimits)
  {
    && (r.Success? <==> AnswerArrived(c) && QuestionGenerationOk(out, limits))
    && (r.Success? ==> r.value == out)
    && (r.Failure? ==> FailedOn(r.error, c, InvalidQuestionGeneration))
  }

  ghost predicate WeightsAssigned(r: Result<seq<Weight>, ActivityError>, c: LlmCall, out: seq<Weight>, cs: seq<CandidateQuestion>,
                                  limits: ChecklistLimits)
  {
    && (r.Success? <==> AnswerArrived(c) && WeightsOk(cs, out, limits))
    && (r.Success? ==> r.value == out)
    && (r.Failure? ==> FailedOn(r.error, c, InvalidWeights))
  }

  ghost predicate QuestionSplit(r: Result<SplitQuestions, ActivityError>, c: LlmCall, out: seq<DraftQuestion>,
                                candidate: CandidateQuestion, weight: int)
  {
    && (r.Success? <==> AnswerArrived(c) && SplitOk(SplitQuestions(candidate.id, out), weight))
    && (r.Success? ==> r.value == SplitQuestions(candidate.id, out))
    && (r.Failure? ==> FailedOn(r.error, c, InvalidSplits))
  }

  ghost predicate AnswerJudged(r: Result<seq<Judgment>, ActivityError>, c: LlmCall, runIndex: int, out: seq<Judgment>,
                               qs: seq<FinalQuestion>)
  {
    && (r.Success? <==> runIndex > 0 && AnswerArrived(c) && JudgmentsOk(qs, out))
    && (r.Success? ==> r.value == out)
    && (r.Failure? && runIndex > 0 ==> FailedOn(r.error, c, JudgmentsCode(qs, out)))
    && (runIndex <= 0 ==>
          r == Failure(ToTemporalError(CoreSemanticError(Semantic(InvalidJudgments, RunOutOfRange)), c.attempt, [])))
  }

  method AnalyzeDimensions(art: Artifacts, c: LlmCall, out: seq<DraftDimension>, limits: ChecklistLimits)
    returns (r: Result<seq<Dimension>, ActivityError>)
    requires CallOk(c)
    modifies art
    ensures art.stored == AfterCall(old(art.stored), c)
    ensures Analyzed(r, c, out, limits)
    ensures r.Failure? ==> CleanError(r.error, art.stored.Keys) && (Retries(r.error) <==> AskAgain(c))
  {
    var references, err := AskModel(art, c);
    match err {
      case Some(e) => return Failure(e);
      case None =>
    }
    var invalid := ValidateDimensionGeneration(out, limits);
    match invalid {
      case Some(e) => return Failure(ToTemporalError(CoreSemanticError(e), c.attempt, references));
      case None =>
    }
    var dimensions := AssignDimensionIDs(out);
    NumberedDimensionsOk(out, limits);
    invalid := ValidateDimensions(dimensions, limits);
    match invalid {
      case Some(e) => return Failure(ToTemporalError(CoreSemanticError(e), c.attempt, references));
      case None => return Success(dimensions);
    }
  }

  method GenerateQuestionsForDimension(art: Artifacts, c: LlmCall, out: seq<DraftQuestion>, limits: ChecklistLimits)
    returns (r: Result<seq<DraftQuestion>, ActivityError>)
    requires CallOk(c)
    modifies art
    ensures art.stored == AfterCall(old(art.stored), c)
    ensures QuestionsGenerated(r, c, out, limits)
    ensures r.Failure? ==> CleanError(r.error, art.stored.Keys) && (Retries(r.error) <==> AskAgain(c))
  {
    var references, err := AskModel(art, c);
    match err {
      case Some(e) => return Failure(e);
      case None =>
    }
    var invalid := ValidateQuestionGeneration(out, limits);
    match invalid {
      case Some(e) => return Failure(ToTemporalError(CoreSemanticError(e), c.attempt, references));
      case None => return Success(out);
    }
  }

  method AssignWeights(art: Artifacts, c: LlmCall, out: seq<Weight>, cs: seq<CandidateQuestion>, limits: ChecklistLimits)
    returns (r: Result<seq<Weight>, ActivityError>)
    requires CallOk(c)
    modifies art
    ensures art.stored == AfterCall(old(art.stored), c)
    ensures WeightsAssigned(r, c, out, cs, limits)
    ensures r.Failure? ==> CleanError(r.error, art.stored.Keys) && (Retries(r.error) <==> AskAgain(c))
  {
    var references, err := AskModel(art, c);
    match err {
      case Some(e) => return Failure(e);
      case None =>
    }
    var invalid := ValidateWeights(cs, out, limits);
    match invalid {
      case Some(e) => return Failure(ToTemporalError(CoreSemanticError(e), c.attempt, references));
      case None => return Success(out);
    }
  }

  method SplitQuestion(art: Artifacts, c: LlmCall, out: seq<DraftQuestion>, candidate: CandidateQuestion, weight: Weight)
    returns (r: Result<SplitQuestions, ActivityError>)
    requires CallOk(c)
    modifies art
    ensures art.stored == AfterCall(old(art.stored), c)
    ensures QuestionSplit(r, c, out, candidate, weight.weight)
    ensures r.Failure? ==> CleanError(r.error, art.stored.Keys) && (Retries(r.error) <==> AskAgain(c))
  {
    var references, err := AskModel(art, c);
    match err {
      case Some(e) => return Failure(e);
      case None =>
    }
    var split := SplitQuestions(candidate.id, out);
    var invalid := ValidateSplitQuestions(split, weight.weight);
    match invalid {
      case Some(e) => return Failure(ToTemporalError(CoreSemanticError(e), c.attempt, references));
      case None => return Success(split);
    }
  }

  /** Without a positive run index the model is not even asked. */
  method JudgeAnswer(art: Artifacts, c: LlmCall, runIndex: int, out: seq<Judgment>, qs: seq<FinalQuestion>)
    returns (r: Result<seq<Judgment>, ActivityError>)
    requires CallOk(c)
    modifies art
    ensures art.stored == if runIndex > 0 then AfterCall(old(art.stored), c) else old(art.stored)
    ensures AnswerJudged(r, c, runIndex, out, qs)
    ensures r.Failure? ==> CleanError(r.error, art.stored.Keys) && (Retries(r.error) <==> runIndex > 0 && AskAgain(c))
  {
    if runIndex <= 0 {
      var e := CoreSemanticError(Semantic(InvalidJudgments, RunOutOfRange));
      CleanErrorOf(e, c.attempt, [], art.stored.Keys);
      ErrorClassification(e, c.attempt, []);
      return Failure(ToTemporalError(e, c.attempt, []));
    }
    var references, err := AskModel(art, c);
    match err {
      case Some(e) => return Failure(e);
      case None =>
    }
    var invalid := ValidateJudgments(qs, out);
    match invalid {
      case Some(e) =>
        assert FailedOn(ToTemporalError(CoreSemanticError(e), c.attempt, references), c, JudgmentsCode(qs, out));
        return Failure(ToTemporalError(CoreSemanticError(e), c.attempt, references));
      case None => return Success(out);
    }
  }
}
