/** Where the workflows' scripts come from: every attempt is one of the activities, and what an activity promises about one
    attempt adds up to what a workflow needs of all of them. */
module Scripts {
  import opened Common
  import opened Types
  import opened Validate
  import opened Failures
  import opened Calls
  import opened Evidence
  import opened Activities
  import opened Inputs
  import opened Terminals
  import opened Workflows
  import CreateChecklist
  import EvaluateAnswer

  /** The workflow hears nothing of the attempt. */
  predicate Silent(a: Attempted) {
    a.TimedOut? || a.Cancelled?
  }

  function HeardOf<T>(r: Result<T, ActivityError>): Attempted<T> {
    if r.Success? then Done(r.value) else Errored(r.error)
  }

  // One attempt of each activity; its writes are among those of the run.

  ghost predicate ByAnalysis(a: Attempted<seq<Dimension>>, limits: ChecklistLimits, writes: seq<StoreWrite>) {
    Silent(a) || exists r, c, out :: CallOk(c) && HasWritten(writes, c) && Analyzed(r, c, out, limits) && a == HeardOf(r)
  }

  ghost predicate ByGeneration(a: Attempted<seq<DraftQuestion>>, limits: ChecklistLimits, writes: seq<StoreWrite>) {
    Silent(a) || exists r, c, out :: CallOk(c) && HasWritten(writes, c) && QuestionsGenerated(r, c, out, limits) && a == HeardOf(r)
  }

  ghost predicate ByWeighing(a: Attempted<seq<Weight>>, cs: seq<CandidateQuestion>, limits: ChecklistLimits, writes: seq<StoreWrite>) {
    Silent(a) || exists r, c, out :: CallOk(c) && HasWritten(writes, c) && WeightsAssigned(r, c, out, cs, limits) && a == HeardOf(r)
  }

  ghost predicate BySplitting(a: Attempted<SplitQuestions>, candidate: CandidateQuestion, weight: int, writes: seq<StoreWrite>) {
    Silent(a) || exists r, c, out :: CallOk(c) && HasWritten(writes, c) && QuestionSplit(r, c, out, candidate, weight) && a == HeardOf(r)
  }

  ghost predicate ByJudging(a: Attempted<seq<Judgment>>, run: int, qs: seq<FinalQuestion>, writes: seq<StoreWrite>) {
    Silent(a) || exists r, c, out :: CallOk(c) && HasWritten(writes, c) && AnswerJudged(r, c, run, out, qs) && a == HeardOf(r)
  }

  /** Writing inputs and loading a checklist fail without a trace of their own. */
  ghost predicate PlainlyFailed<T>(a: Attempted<T>) {
    Silent(a) || a.Done? || exists n :: a == Errored(Plain(n))
  }

  /** Loading returns one of the checklists that reads of the run have returned. */
  ghost predicate ByLoading(a: Attempted<Checklist>, loads: seq<Checklist>) {
    PlainlyFailed(a) && (a.Done? ==> a.value in loads)
  }

  /** A terminal activity reports what the store answers to its call, or a connection that broke. */
  ghost predicate ByStore(a: Attempted<()>, call: Call)
    requires call.Terminal()
  {
    Silent(a) || exists r, reply, read, n :: Reports(r, call, reply, read, n) && a == HeardOf(r)
  }

  // ---------------------------------------------------------------- one attempt

  lemma {:induction false} CallErrorIsClean(e: ActivityError, c: LlmCall, code: ErrorCode, writes: seq<StoreWrite>)
    requires WellBehaved(writes) && HasWritten(writes, c) && CallOk(c) && FailedOn(e, c, code)
    ensures CleanError(e, AfterWrites(writes).Keys)
  {
    ClaimedBodiesLast(writes, c);
    FailsCleanly(e, c, code, AfterWrites(writes).Keys);
  }

  lemma {:induction false} AnalysisAttempt(a: Attempted<seq<Dimension>>, limits: ChecklistLimits, writes: seq<StoreWrite>)
    requires WellBehaved(writes) && ByAnalysis(a, limits, writes)
    ensures a.Errored? ==> CleanError(a.error, AfterWrites(writes).Keys)
    ensures a.Done? ==> DimensionsOk(a.value, limits) && forall i | 0 <= i < |a.value| :: a.value[i].ordinal == i + 1
  {
    if !Silent(a) {
      var r, c, out :| CallOk(c) && HasWritten(writes, c) && Analyzed(r, c, out, limits) && a == HeardOf(r);
      if a.Errored? {
        CallErrorIsClean(a.error, c, InvalidDimensionAnalysis, writes);
      }
    }
  }

  lemma {:induction false} GenerationAttempt(a: Attempted<seq<DraftQuestion>>, limits: ChecklistLimits, writes: seq<StoreWrite>)
    requires WellBehaved(writes) && ByGeneration(a, limits, writes)
    ensures a.Errored? ==> CleanError(a.error, AfterWrites(writes).Keys)
    ensures a.Done? ==> QuestionGenerationOk(a.value, limits)
  {
    if !Silent(a) {
      var r, c, out :| CallOk(c) && HasWritten(writes, c) && QuestionsGenerated(r, c, out, limits) && a == HeardOf(r);
      if a.Errored? {
        CallErrorIsClean(a.error, c, InvalidQuestionGeneration, writes);
      }
    }
  }

  lemma {:induction false} WeighingAttempt(a: Attempted<seq<Weight>>, cs: seq<CandidateQuestion>, limits: ChecklistLimits,
                                           writes: seq<StoreWrite>)
    requires WellBehaved(writes) && ByWeighing(a, cs, limits, writes)
    ensures a.Errored? ==> CleanError(a.error, AfterWrites(writes).Keys)
    ensures a.Done? ==> WeightsOk(cs, a.value, limits)
  {
    if !Silent(a) {
      var r, c, out :| CallOk(c) && HasWritten(writes, c) && WeightsAssigned(r, c, out, cs, limits) && a == HeardOf(r);
      if a.Errored? {
        CallErrorIsClean(a.error, c, InvalidWeights, writes);
      }
    }
  }

  lemma {:induction false} SplittingAttempt(a: Attempted<SplitQuestions>, candidate: CandidateQuestion, weight: int,
                                            writes: seq<StoreWrite>)
    requires WellBehaved(writes) && BySplitting(a, candidate, weight, writes)
    ensures a.Errored? ==> CleanError(a.error, AfterWrites(writes).Keys)
    ensures a.Done? ==> a.value.candidateQuestionID == candidate.id && SplitOk(a.value, weight)
  {
    if !Silent(a) {
      var r, c, out :| CallOk(c) && HasWritten(writes, c) && QuestionSplit(r, c, out, candidate, weight) && a == HeardOf(r);
      if a.Errored? {
        CallErrorIsClean(a.error, c, InvalidSplits, writes);
      }
    }
  }

  lemma {:induction false} JudgingAttempt(a: Attempted<seq<Judgment>>, run: int, qs: seq<FinalQuestion>, writes: seq<StoreWrite>)
    requires WellBehaved(writes) && ByJudging(a, run, qs, writes)
    ensures a.Errored? ==> CleanError(a.error, AfterWrites(writes).Keys)
    ensures a.Done? ==> JudgmentsOk(qs, a.value)
  {
    if !Silent(a) {
      var r, c, out :| CallOk(c) && HasWritten(writes, c) && AnswerJudged(r, c, run, out, qs) && a == HeardOf(r);
      if a.Errored? {
        if run > 0 {
          CallErrorIsClean(a.error, c, JudgmentsCode(qs, out), writes);
        } else {
          CleanErrorOf(CoreSemanticError(Semantic(InvalidJudgments, RunOutOfRange)), c.attempt, [], AfterWrites(writes).Keys);
        }
      }
    }
  }

  lemma {:induction false} PlainAttempt<T>(a: Attempted<T>, stored: set<string>)
    requires PlainlyFailed(a)
    ensures a.Errored? ==> CleanError(a.error, stored)
  {
    if a.Errored? {
      var n :| a == Errored(Plain(n));
      CleanErrorOf(OtherError, n, [], stored);
    }
  }

  lemma {:induction false} StoreAttempt(a: Attempted<()>, call: Call, stored: set<string>)
    requires call.Terminal() && ByStore(a, call)
    ensures a.Errored? ==> CleanError(a.error, stored)
  {
    if a.Errored? {
      var r, reply, read, n :| Reports(r, call, reply, read, n) && a == HeardOf(r);
      ReportIsClean(r, call, reply, read, n);
      assert a.error.details.artifactReferences == [];
    }
  }

  // ---------------------------------------------------------------- whole scripts

  ghost predicate AllPlain<T>(attempts: seq<Attempted<T>>) {
    forall k | 0 <= k < |attempts| :: PlainlyFailed(attempts[k])
  }

  ghost predicate AllByLoading(attempts: seq<Attempted<Checklist>>, loads: seq<Checklist>) {
    forall k | 0 <= k < |attempts| :: ByLoading(attempts[k], loads)
  }

  ghost predicate AllByStore(attempts: seq<Attempted<()>>, call: Call)
    requires call.Terminal()
  {
    forall k | 0 <= k < |attempts| :: ByStore(attempts[k], call)
  }

  lemma {:induction false} PlainErrors<T>(attempts: seq<Attempted<T>>, stored: set<string>)
    requires AllPlain(attempts)
    ensures ErrorsOk(attempts, stored)
  {
    forall k | 0 <= k < |attempts| ensures attempts[k].Errored? ==> CleanError(attempts[k].error, stored) {
      PlainAttempt(attempts[k], stored);
    }
  }

  lemma {:induction false} StoreErrors(attempts: seq<Attempted<()>>, call: Call, stored: set<string>)
    requires call.Terminal() && AllByStore(attempts, call)
    ensures ErrorsOk(attempts, stored)
  {
    forall k | 0 <= k < |attempts| ensures attempts[k].Errored? ==> CleanError(attempts[k].error, stored) {
      StoreAttempt(attempts[k], call, stored);
    }
  }

  /** Every attempt of a checklist workflow's script is one of the activity it belongs to. */
  ghost predicate ChecklistScriptFrom(script: CreateChecklist.ChecklistScript, checklistID: string, limits: ChecklistLimits,
                                      writes: seq<StoreWrite>)
  {
    && AllPlain(script.inputs)
    && (forall k | 0 <= k < |script.analyze| :: ByAnalysis(script.analyze[k], limits, writes))
    && (forall d, k | 0 <= k < |script.generate(d)| :: ByGeneration(script.generate(d)[k], limits, writes))
    && (forall cs, k | 0 <= k < |script.weigh(cs)| :: ByWeighing(script.weigh(cs)[k], cs, limits, writes))
    && (forall c, w, k | 0 <= k < |script.split(c, w)| :: BySplitting(script.split(c, w)[k], c, w, writes))
    && (forall c :: AllByStore(script.succeed(c), SucceedChecklist(checklistID, c, limits)))
  }

  /** Every attempt of an evaluation workflow's script is one of the activity it belongs to; loads are the checklists that
      reads of the run have returned. */
  ghost predicate EvaluationScriptFrom(script: EvaluateAnswer.EvaluationScript, evaluationID: string, checklistID: string,
                                       loads: seq<Checklist>, writes: seq<StoreWrite>)
  {
    && AllPlain(script.input) && AllByLoading(script.load, loads)
    && (forall run, qs, k | 0 <= k < |script.judge(run, qs)| :: ByJudging(script.judge(run, qs)[k], run, qs, writes))
    && (forall votes, score :: AllByStore(script.succeed(votes, score), SucceedEvaluation(evaluationID, checklistID, votes, score)))
  }

  /** Such a script keeps all that the checklist workflow relies on, and its records refer to artifacts that are there after
      all writes of the run. */
  lemma {:induction false} ChecklistScriptIsOk(script: CreateChecklist.ChecklistScript, checklistID: string, limits: ChecklistLimits,
                                               writes: seq<StoreWrite>)
    requires WellBehaved(writes) && ChecklistScriptFrom(script, checklistID, limits, writes)
    ensures CreateChecklist.ScriptOk(script, limits, AfterWrites(writes).Keys)
  {
    var stored := AfterWrites(writes).Keys;
    PlainErrors(script.inputs, stored);
    AnalysesOk(script.analyze, limits, writes);
    forall d ensures CreateChecklist.GeneratedOk(script.generate(d), limits, stored) {
      GenerationsOk(script.generate(d), limits, writes);
    }
    forall cs ensures CreateChecklist.WeighedOk(script.weigh(cs), cs, limits, stored) {
      WeighingsOk(script.weigh(cs), cs, limits, writes);
    }
    forall c, w ensures CreateChecklist.SplitAttemptsOk(script.split(c, w), c, w, stored) {
      SplittingsOk(script.split(c, w), c, w, writes);
    }
    forall c ensures ErrorsOk(script.succeed(c), stored) {
      StoreErrors(script.succeed(c), SucceedChecklist(checklistID, c, limits), stored);
    }
  }

  lemma {:induction false} AnalysesOk(attempts: seq<Attempted<seq<Dimension>>>, limits: ChecklistLimits, writes: seq<StoreWrite>)
    requires WellBehaved(writes) && forall k | 0 <= k < |attempts| :: ByAnalysis(attempts[k], limits, writes)
    ensures CreateChecklist.AnalyzedOk(attempts, limits, AfterWrites(writes).Keys)
  {
    forall k | 0 <= k < |attempts|
      ensures attempts[k].Errored? ==> CleanError(attempts[k].error, AfterWrites(writes).Keys)
      ensures attempts[k].Done? ==> DimensionsOk(attempts[k].value, limits)
      ensures attempts[k].Done? ==> forall i | 0 <= i < |attempts[k].value| :: attempts[k].value[i].ordinal == i + 1
    {
      AnalysisAttempt(attempts[k], limits, writes);
    }
  }

  lemma {:induction false} GenerationsOk(attempts: seq<Attempted<seq<DraftQuestion>>>, limits: ChecklistLimits, writes: seq<StoreWrite>)
    requires WellBehaved(writes) && forall k | 0 <= k < |attempts| :: ByGeneration(attempts[k], limits, writes)
    ensures CreateChecklist.GeneratedOk(attempts, limits, AfterWrites(writes).Keys)
  {
    forall k | 0 <= k < |attempts|
      ensures attempts[k].Errored? ==> CleanError(attempts[k].error, AfterWrites(writes).Keys)
      ensures attempts[k].Done? ==> QuestionGenerationOk(attempts[k].value, limits)
    {
      GenerationAttempt(attempts[k], limits, writes);
    }
  }

  lemma {:induction false} WeighingsOk(attempts: seq<Attempted<seq<Weight>>>, cs: seq<CandidateQuestion>, limits: ChecklistLimits,
                                       writes: seq<StoreWrite>)
    requires WellBehaved(writes) && forall k | 0 <= k < |attempts| :: ByWeighing(attempts[k], cs, limits, writes)
    ensures CreateChecklist.WeighedOk(attempts, cs, limits, AfterWrites(writes).Keys)
  {
    forall k | 0 <= k < |attempts|
      ensures attempts[k].Errored? ==> CleanError(attempts[k].error, AfterWrites(writes).Keys)
      ensures attempts[k].Done? ==> WeightsOk(cs, attempts[k].value, limits)
    {
      WeighingAttempt(attempts[k], cs, limits, writes);
    }
  }

  lemma {:induction false} SplittingsOk(attempts: seq<Attempted<SplitQuestions>>, c: CandidateQuestion, w: int, writes: seq<StoreWrite>)
    requires WellBehaved(writes) && forall k | 0 <= k < |attempts| :: BySplitting(attempts[k], c, w, writes)
    ensures CreateChecklist.SplitAttemptsOk(attempts, c, w, AfterWrites(writes).Keys)
  {
    forall k | 0 <= k < |attempts|
      ensures attempts[k].Errored? ==> CleanError(attempts[k].error, AfterWrites(writes).Keys)
      ensures attempts[k].Done? ==> attempts[k].value.candidateQuestionID == c.id && SplitOk(attempts[k].value, w)
    {
      SplittingAttempt(attempts[k], c, w, writes);
    }
  }

  lemma {:induction false} JudgingsOk(attempts: seq<Attempted<seq<Judgment>>>, run: int, qs: seq<FinalQuestion>, writes: seq<StoreWrite>)
    requires WellBehaved(writes) && forall k | 0 <= k < |attempts| :: ByJudging(attempts[k], run, qs, writes)
    ensures EvaluateAnswer.JudgedOk(attempts, qs, AfterWrites(writes).Keys)
  {
    forall k | 0 <= k < |attempts|
      ensures attempts[k].Errored? ==> CleanError(attempts[k].error, AfterWrites(writes).Keys)
      ensures attempts[k].Done? ==> JudgmentsOk(qs, attempts[k].value)
    {
      JudgingAttempt(attempts[k], run, qs, writes);
    }
  }

  /** The same for the evaluation workflow. */
  lemma {:induction false} EvaluationScriptIsOk(script: EvaluateAnswer.EvaluationScript, evaluationID: string, checklistID: string,
                                                loads: seq<Checklist>, writes: seq<StoreWrite>)
    requires WellBehaved(writes) && EvaluationScriptFrom(script, evaluationID, checklistID, loads, writes)
    ensures EvaluateAnswer.ScriptOk(script, AfterWrites(writes).Keys)
    ensures Answer(script.load).Success? ==> Answer(script.load).value in loads
  {
    var stored := AfterWrites(writes).Keys;
    PlainErrors(script.input, stored);
    assert AllPlain(script.load);
    PlainErrors(script.load, stored);
    if Answer(script.load).Success? {
      AnsweredAt(script.load);
    }
    forall run, qs ensures EvaluateAnswer.JudgedOk(script.judge(run, qs), qs, stored) {
      JudgingsOk(script.judge(run, qs), run, qs, writes);
    }
    forall votes, score ensures ErrorsOk(script.succeed(votes, score), stored) {
      StoreErrors(script.succeed(votes, score), SucceedEvaluation(evaluationID, checklistID, votes, score), stored);
    }
  }
}
