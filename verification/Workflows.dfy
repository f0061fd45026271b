/** What both workflows share: activities under the retry policy, and recording a failure. */
module Workflows {
  import opened Common
  import opened Text
  import opened Types
  import opened Failures

  // ---------------------------------------------------------------- activities

  /** How one attempt of an activity ends, as the workflow learns of it. */
  datatype Attempted<+T> = Done(value: T) | Errored(error: ActivityError) | TimedOut | Cancelled

  function AttemptAt<T>(attempts: seq<Attempted<T>>, k: nat): Attempted<T> {
    if k < |attempts| then attempts[k] else TimedOut
  }

  predicate TriedAgain<T>(a: Attempted<T>) {
    a.TimedOut? || (a.Errored? && Retries(a.error))
  }

  function CauseOf<T>(a: Attempted<T>): Cause {
    if a.Errored? then FromActivity(a.error) else NoDetails
  }

  function ResultOf<T>(a: Attempted<T>): Result<T, Cause> {
    if a.Done? then Success(a.value) else Failure(CauseOf(a))
  }

  /** Attempts fail with valid records only, and these refer to stored artifacts only. */
  ghost predicate ErrorsOk<T>(attempts: seq<Attempted<T>>, stored: set<string>) {
    forall k | 0 <= k < |attempts| :: attempts[k].Errored? ==> CleanError(attempts[k].error, stored)
  }

  /** The number of attempts made from attempt k on: up to the first one that is not tried again. */
  function UsedFrom(attempts: seq<Attempted>, k: nat): (used: nat)
    requires k < MAX_ATTEMPTS
    ensures k < used <= MAX_ATTEMPTS
    decreases MAX_ATTEMPTS - k
  {
    if TriedAgain(AttemptAt(attempts, k)) && k + 1 < MAX_ATTEMPTS then UsedFrom(attempts, k + 1) else k + 1
  }

  function Used<T>(attempts: seq<Attempted<T>>): (used: nat)
    ensures 1 <= used <= MAX_ATTEMPTS
  {
    UsedFrom(attempts, 0)
  }

  /** What becomes of an activity: its last attempt decides. */
  function Answer<T>(attempts: seq<Attempted<T>>): Result<T, Cause> {
    ResultOf(AttemptAt(attempts, Used(attempts) - 1))
  }

  lemma {:induction false} UsedExactly<T>(attempts: seq<Attempted<T>>, k: nat, last: nat)
    requires k <= last < MAX_ATTEMPTS && forall j | k <= j < last :: TriedAgain(AttemptAt(attempts, j))
    requires !TriedAgain(AttemptAt(attempts, last)) || last + 1 == MAX_ATTEMPTS
    ensures UsedFrom(attempts, k) == last + 1
    decreases last - k
  {
    if k < last {
      UsedExactly(attempts, k + 1, last);
    }
  }

  lemma {:induction false} UsedRetried<T>(attempts: seq<Attempted<T>>, k: nat)
    requires k < MAX_ATTEMPTS
    ensures forall j | k <= j < UsedFrom(attempts, k) - 1 :: TriedAgain(AttemptAt(attempts, j))
    ensures UsedFrom(attempts, k) == MAX_ATTEMPTS || !TriedAgain(AttemptAt(attempts, UsedFrom(attempts, k) - 1))
    decreases MAX_ATTEMPTS - k
  {
    if TriedAgain(AttemptAt(attempts, k)) && k + 1 < MAX_ATTEMPTS {
      UsedRetried(attempts, k + 1);
    }
  }

  /** An answer is the value of an attempt that was made. */
  lemma AnsweredAt<T>(attempts: seq<Attempted<T>>)
    requires Answer(attempts).Success?
    ensures Used(attempts) <= |attempts| && attempts[Used(attempts) - 1] == Done(Answer(attempts).value)
  {
  }

  /** The cause is an activity's, and valid. */
  ghost predicate ActivityFailed(cause: Cause, stored: set<string>) {
    CauseOk(cause, stored) && !cause.OwnError?
  }

  /** A failed activity failed with a valid record; if that record is retryable, all attempts were used up. */
  lemma {:induction false} FailedAnswer<T>(attempts: seq<Attempted<T>>, stored: set<string>)
    requires ErrorsOk(attempts, stored) && Answer(attempts).Failure?
    ensures ActivityFailed(Answer(attempts).error, stored)
    ensures var cause := Answer(attempts).error;
            cause.FromActivity? && cause.error.details.retryable ==> Used(attempts) == MAX_ATTEMPTS
  {
    UsedRetried(attempts, 0);
  }

  /** One activity under the retry policy: the last attempt made decides, and every earlier one was one to try again. */
  method ExecuteActivity<T>(attempts: seq<Attempted<T>>) returns (r: Result<T, Cause>, used: nat)
    ensures r == Answer(attempts) && used == Used(attempts)
    ensures 1 <= used <= 3
    ensures forall k | 0 <= k < used - 1 && k < |attempts| ::
              attempts[k].TimedOut? || (attempts[k].Errored? && Retries(attempts[k].error))
    ensures used < 3 ==> used <= |attempts|
                         && !attempts[used - 1].TimedOut? && (attempts[used - 1].Errored? ==> !Retries(attempts[used - 1].error))
    ensures r == if used > |attempts| then Failure(NoDetails) else match attempts[used - 1]
              case Done(v) => Success(v)
              case Errored(e) => Failure(FromActivity(e))
              case _ => Failure(NoDetails)
  {
    used := 0;
    r := Failure(NoDetails);
    while used < MAX_ATTEMPTS
      invariant used <= MAX_ATTEMPTS
      invariant forall k | 0 <= k < used :: TriedAgain(AttemptAt(attempts, k))
      invariant used > 0 ==> r == ResultOf(AttemptAt(attempts, used - 1))
    {
      var attempt := AttemptAt(attempts, used);
      used := used + 1;
      match attempt {
        case Done(v) =>
          UsedExactly(attempts, 0, used - 1);
          return Success(v), used;
        case _ => r := Failure(CauseOf(attempt));
      }
      if !TriedAgain(attempt) {
        UsedExactly(attempts, 0, used - 1);
        return;
      }
    }
    UsedExactly(attempts, 0, used - 1);
  }

  /** What awaiting a started activity yields. */
  type Future<T> = Result<T, Cause>

  // Several activities, started one after the other and awaited in the same order.

  function Answers<T>(asked: seq<seq<Attempted<T>>>): (answers: seq<Future<T>>)
    ensures |answers| == |asked|
  {
    seq(|asked|, i requires 0 <= i < |asked| => Answer(asked[i]))
  }

  function TotalUsed<T>(asked: seq<seq<Attempted<T>>>): nat {
    if asked == [] then 0 else TotalUsed(asked[..|asked| - 1]) + Used(asked[|asked| - 1])
  }

  lemma {:induction false} TotalUsedBounded<T>(asked: seq<seq<Attempted<T>>>)
    ensures |asked| <= TotalUsed(asked) <= MAX_ATTEMPTS * |asked|
  {
    if asked != [] {
      TotalUsedBounded(asked[..|asked| - 1]);
    }
  }

  lemma TotalUsedStep<T>(asked: seq<seq<Attempted<T>>>, i: nat)
    requires i < |asked|
    ensures TotalUsed(asked[..i + 1]) == TotalUsed(asked[..i]) + Used(asked[i])
  {
    assert asked[..i + 1][..i] == asked[..i];
  }

  ghost predicate AllSucceeded<T>(answers: seq<Future<T>>) {
    forall i | 0 <= i < |answers| :: answers[i].Success?
  }

  /** The first failed answer, in the order they are awaited, failed for this cause. */
  ghost predicate FirstFailure<T>(answers: seq<Future<T>>, cause: Cause) {
    exists i :: 0 <= i < |answers| && answers[i] == Failure(cause) && AllSucceeded(answers[..i])
  }

  lemma {:induction false} OneFirstFailure<T>(answers: seq<Future<T>>, a: Cause, b: Cause)
    requires FirstFailure(answers, a) && FirstFailure(answers, b)
    ensures a == b && !AllSucceeded(answers)
  {
    var i :| 0 <= i < |answers| && answers[i] == Failure(a) && AllSucceeded(answers[..i]);
    var j :| 0 <= j < |answers| && answers[j] == Failure(b) && AllSucceeded(answers[..j]);
  }

  /** What was answered; a default stands for an answer that is not there. */
  function ValueOr<T>(answer: Result<T, Cause>, default: T): T {
    if answer.Success? then answer.value else default
  }

  function Values<T>(answers: seq<Future<T>>, default: T): (values: seq<T>)
    ensures |values| == |answers|
  {
    seq(|answers|, i requires 0 <= i < |answers| => ValueOr(answers[i], default))
  }

  function Own(e: SemanticError): Cause {
    OwnError(CoreSemanticError(e))
  }

  // ---------------------------------------------------------------- stages and failing

  datatype Stage =
    | AtLimits | AtChecklistInputs | AtDimensions | AtQuestions | AtWeights | AtSplits | AtBuild | AtChecklistSuccess
    | AtEvaluationInput | AtLoad | AtJudging | AtScore | AtEvaluationSuccess
  {
    function Name(): string {
      match this
      case AtLimits => "validate_limits"
      case AtChecklistInputs => "write_checklist_inputs"
      case AtDimensions => "dimension_analysis"
      case AtQuestions => "question_generation"
      case AtWeights => "weight_assignment"
      case AtSplits => "question_splitting"
      case AtBuild => "build_final_checklist"
      case AtChecklistSuccess => "succeed_checklist"
      case AtEvaluationInput => "write_evaluation_input"
      case AtLoad => "load_checklist"
      case AtJudging => "binary_judging"
      case AtScore => "score_checklist"
      case AtEvaluationSuccess => "succeed_evaluation"
    }

    predicate OfEvaluation() {
      AtEvaluationInput? || AtLoad? || AtJudging? || AtScore? || AtEvaluationSuccess?
    }

    /** The place of a stage in its workflow. */
    function Rank(): nat {
      match this
      case AtLimits => 0
      case AtChecklistInputs => 1
      case AtDimensions => 2
      case AtQuestions => 3
      case AtWeights => 4
      case AtSplits => 5
      case AtBuild => 6
      case AtChecklistSuccess => 7
      case AtEvaluationInput => 0
      case AtLoad => 1
      case AtJudging => 2
      case AtScore => 3
      case AtEvaluationSuccess => 4
    }

    lemma NameIsNotBlank()
      ensures !Blank(Name())
    {
      FirstNotSpace(Name());
    }
  }

  /** The stages of each workflow in order, as records name them. */
  const CHECKLIST_STAGES := [
    "validate_limits", "write_checklist_inputs", "dimension_analysis", "question_generation", "weight_assignment",
    "question_splitting", "build_final_checklist", "succeed_checklist"]
  const EVALUATION_STAGES := ["write_evaluation_input", "load_checklist", "binary_judging", "score_checklist", "succeed_evaluation"]

  lemma NameByRank(stage: Stage)
    ensures !stage.OfEvaluation() ==> stage.Rank() < 8 && stage.Name() == CHECKLIST_STAGES[stage.Rank()]
    ensures stage.OfEvaluation() ==> stage.Rank() < 5 && stage.Name() == EVALUATION_STAGES[stage.Rank()]
  {
  }

  // Workflow ids are fixed by the row the workflow is about.

  function ChecklistWorkflowID(checklistID: string): (id: string)
    ensures !Blank(id)
  {
    var id := "checklist-" + checklistID;
    assert id[0] == 'c';
    id
  }

  function EvaluationWorkflowID(evaluationID: string): (id: string)
    ensures !Blank(id)
  {
    var id := "evaluation-" + evaluationID;
    assert id[0] == 'e';
    id
  }

  /** No two rows have workflows of one id. */
  lemma {:induction false} OneWorkflowEach(a: string, b: string)
    ensures ChecklistWorkflowID(a) == "checklist-" + a && EvaluationWorkflowID(a) == "evaluation-" + a
    ensures ChecklistWorkflowID(a) == ChecklistWorkflowID(b) || EvaluationWorkflowID(a) == EvaluationWorkflowID(b) ==> a == b
    ensures ChecklistWorkflowID(a) != EvaluationWorkflowID(b)
  {
    assert ChecklistWorkflowID(a)[10..] == a && ChecklistWorkflowID(b)[10..] == b;
    assert EvaluationWorkflowID(a)[11..] == a && EvaluationWorkflowID(b)[11..] == b;
    assert ChecklistWorkflowID(a)[0] == 'c' && EvaluationWorkflowID(b)[0] == 'e';
  }

  datatype Stopped = Stopped(stage: Stage, cause: Cause)

  /** The record of a stop: the workflow's id, the stage's name, and the cause's own record. */
  lemma {:induction false} StopRecord(s: Stopped, id: string)
    ensures !s.stage.OfEvaluation() ==>
              var d := WorkflowDetails(s.cause, ChecklistWorkflowID(id), s.stage.Name());
              d.workflowID == "checklist-" + id && s.stage.Rank() < 8 && d.stage == CHECKLIST_STAGES[s.stage.Rank()]
    ensures s.stage.OfEvaluation() ==>
              var d := WorkflowDetails(s.cause, EvaluationWorkflowID(id), s.stage.Name());
              d.workflowID == "evaluation-" + id && s.stage.Rank() < 5 && d.stage == EVALUATION_STAGES[s.stage.Rank()]
  {
    OneWorkflowEach(id, id);
    NameByRank(s.stage);
  }

  /** What a workflow returns: nil, the cause it recorded, or the error of the activity that should have recorded it. */
  datatype Verdict = Nil | Recorded(details: Details) | NotRecorded

  /** `failChecklist` and `failEvaluation`: the record is one the store accepts, follows its class and refers to stored
      artifacts only, so only the activity itself can fail. */
  method RecordFailure(workflowID: string, stopped: Stopped, record: Details -> seq<Attempted<()>>, ghost stored: set<string>)
    returns (verdict: Verdict, used: nat)
    requires CauseOk(stopped.cause, stored) && !Blank(workflowID)
    ensures var d := WorkflowDetails(stopped.cause, workflowID, stopped.stage.Name());
            && RecordOk(d, stored)
            && verdict == (if Answer(record(d)).Success? then Recorded(d) else NotRecorded)
            && used == Used(record(d))
  {
    stopped.stage.NameIsNotBlank();
    WorkflowDetailsOk(stopped.cause, stored, workflowID, stopped.stage.Name());
    var details := WorkflowFailureDetails(stopped.cause, workflowID, stopped.stage.Name());
    var r;
    r, used := ExecuteActivity(record(details));
    verdict := if r.Success? then Recorded(details) else NotRecorded;
  }
}
