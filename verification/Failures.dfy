/** Failure records: how an error becomes one, when a record is valid, and when two are equal. */
module Failures {
  import opened Text
  import opened Paths
  import opened Types

  const CLASS_MODEL_OUTPUT_INVALID := "model_output_invalid"
  const CLASS_INFRA_RETRYABLE := "infra_retryable"
  const CLASS_INFRA_NON_RETRYABLE := "infra_non_retryable"

  datatype Details = Details(
    workflowID: string,
    stage: string,
    errorClass: string,
    errorCode: string,
    message: string,
    retryable: bool,
    attemptCount: int,
    diagnostics: seq<LimitDiagnostic>,
    artifactReferences: seq<string>)
  {
    /** `Details.Equal`. */
    predicate Equal(other: Details) {
      && workflowID == other.workflowID
      && stage == other.stage
      && errorClass == other.errorClass
      && errorCode == other.errorCode
      && message == other.message
      && retryable == other.retryable
      && attemptCount == other.attemptCount
      && diagnostics == other.diagnostics
      && artifactReferences == other.artifactReferences
    }
  }

  ghost predicate ReferencesOk(references: seq<string>) {
    forall i | 0 <= i < |references| :: ValidReference(references[i])
  }

  predicate KnownClass(c: string) {
    c == CLASS_MODEL_OUTPUT_INVALID || c == CLASS_INFRA_RETRYABLE || c == CLASS_INFRA_NON_RETRYABLE
  }

  ghost predicate DetailsOk(d: Details) {
    && !Blank(d.workflowID) && !Blank(d.stage) && !Blank(d.errorClass) && !Blank(d.errorCode) && !Blank(d.message)
    && KnownClass(d.errorClass)
    && d.attemptCount > 0
    && ReferencesOk(d.artifactReferences)
  }

  /** No value of the list is blank. */
  method AllPresent(required: seq<string>) returns (ok: bool)
    ensures ok <==> forall i | 0 <= i < |required| :: !Blank(required[i])
  {
    for i := 0 to |required|
      invariant forall k | 0 <= k < i :: !Blank(required[k])
    {
      if Blank(required[i]) {
        return false;
      }
    }
    return true;
  }

  method ValidateReferences(references: seq<string>) returns (ok: bool)
    ensures ok <==> ReferencesOk(references)
  {
    for i := 0 to |references|
      invariant forall k | 0 <= k < i :: ValidReference(references[k])
    {
      if !ValidReference(references[i]) {
        return false;
      }
    }
    return true;
  }

  /** `Details.Validate`; its two loops are the two methods above. */
  method ValidateDetails(d: Details) returns (ok: bool)
    ensures ok <==> DetailsOk(d)
  {
    var required := [d.workflowID, d.stage, d.errorClass, d.errorCode, d.message];
    ok := AllPresent(required);
    assert ok <==> !Blank(required[0]) && !Blank(required[1]) && !Blank(required[2]) && !Blank(required[3]) && !Blank(required[4]);
    if !ok {
      return;
    }
    if !KnownClass(d.errorClass) {
      return false;
    }
    if d.attemptCount <= 0 {
      return false;
    }
    ok := ValidateReferences(d.artifactReferences);
  }

  // ---------------------------------------------------------------- from an error to a record

  /** The errors an activity can meet, as `errors.As` tells them apart. */
  datatype ErrorValue =
    | ModelOutputError(message: string)
    | CoreSemanticError(semantic: SemanticError)
    | InfraError(infraMessage: string, infraRetryable: bool)
    | ResponseSizeError(configuredLimit: int, observedCount: int)
    | OtherError

  /** The messages of the LLM client's errors are fixed texts. */
  predicate ErrorOk(e: ErrorValue) {
    match e
    case ModelOutputError(m) => !Blank(m)
    case InfraError(m, _) => !Blank(m)
    case _ => true
  }

  function FailureDetails(e: ErrorValue, attemptCount: int): Details {
    var attempts := if attemptCount <= 0 then 1 else attemptCount;
    match e
    case ModelOutputError(m) =>
      Details("", "", CLASS_MODEL_OUTPUT_INVALID, "model_output_invalid", m, false, attempts, [], [])
    case CoreSemanticError(s) =>
      Details("", "", CLASS_MODEL_OUTPUT_INVALID, s.code.Name(), s.fault.Message(), false, attempts, s.diagnostics, [])
    case InfraError(m, retryable) =>
      Details("", "", if retryable then CLASS_INFRA_RETRYABLE else CLASS_INFRA_NON_RETRYABLE,
              "llm_infrastructure_error", m, retryable, attempts, [], [])
    case ResponseSizeError(limit, observed) =>
      Details("", "", CLASS_INFRA_NON_RETRYABLE, "llm_response_too_large", "LLM response too large", false,
              attempts, [LimitDiagnostic("max_llm_response_bytes", limit, observed, "", "")], [])
    case OtherError =>
      Details("", "", CLASS_INFRA_RETRYABLE, "internal_operation_failed", "internal operation failed", true, attempts, [], [])
  }

  /** An error as it leaves an activity: the record it carries, and whether Temporal may try again. */
  datatype ActivityError = ActivityError(errorType: string, nonRetryable: bool, details: Details)

  function ToTemporalError(e: ErrorValue, attempt: int, references: seq<string>): ActivityError {
    var details := FailureDetails(e, attempt).(artifactReferences := references);
    ActivityError(details.errorClass, !details.retryable, details)
  }

  // The retry policy of every activity.

  const MAX_ATTEMPTS := 3

  /** Temporal tries again: neither the error nor the policy's list of types forbids it. */
  predicate Retries(e: ActivityError) {
    !e.nonRetryable && e.errorType != CLASS_MODEL_OUTPUT_INVALID && e.errorType != CLASS_INFRA_NON_RETRYABLE
  }

  /** What a workflow sees fail: an error of its own, an activity's error with its record, or one that carries none. */
  datatype Cause = OwnError(e: ErrorValue) | FromActivity(error: ActivityError) | NoDetails

  /** The carried record if there is one, otherwise that of an error met on the first attempt; stage and workflow are filled
      in, and everything else is kept. */
  method WorkflowFailureDetails(cause: Cause, workflowID: string, stage: string) returns (details: Details)
    ensures details == WorkflowDetails(cause, workflowID, stage)
    ensures details.workflowID == workflowID && details.stage == stage && details.attemptCount > 0
    ensures var kept := if cause.FromActivity? then cause.error.details
                        else FailureDetails(if cause.OwnError? then cause.e else OtherError, 1);
            details.(workflowID := kept.workflowID, stage := kept.stage, attemptCount := kept.attemptCount) == kept
            && (kept.attemptCount > 0 ==> details.attemptCount == kept.attemptCount)
  {
    details := FailureDetails(if cause.OwnError? then cause.e else OtherError, 1);
    if cause.FromActivity? {
      details := cause.error.details;
    }
    details := details.(workflowID := workflowID);
    details := details.(stage := stage);
    if details.attemptCount <= 0 {
      details := details.(attemptCount := 1);
    }
  }

  function WorkflowDetails(cause: Cause, workflowID: string, stage: string): Details {
    var base := match cause
      case OwnError(e) => FailureDetails(e, 1)
      case FromActivity(a) => a.details
      case NoDetails => FailureDetails(OtherError, 1);
    base.(workflowID := workflowID, stage := stage, attemptCount := if base.attemptCount <= 0 then 1 else base.attemptCount)
  }

  /** The record the API writes when a workflow definitely did not start. */
  function StartFailureDetails(workflowID: string): Details {
    Details(workflowID, "start_workflow", CLASS_INFRA_NON_RETRYABLE, "workflow_start_failed", "workflow did not start", false, 1, [], [])
  }

  // ---------------------------------------------------------------- every record built is a valid one

  /** All of a record but its workflow and stage is in order, and the retry flag follows the class. */
  ghost predicate BodyOk(d: Details) {
    && !Blank(d.errorCode) && !Blank(d.message)
    && KnownClass(d.errorClass)
    && d.attemptCount > 0
    && ReferencesOk(d.artifactReferences)
    && (d.retryable <==> d.errorClass == CLASS_INFRA_RETRYABLE)
  }

  lemma ClassesDiffer()
    ensures CLASS_MODEL_OUTPUT_INVALID != CLASS_INFRA_RETRYABLE
    ensures CLASS_INFRA_NON_RETRYABLE != CLASS_INFRA_RETRYABLE
    ensures CLASS_MODEL_OUTPUT_INVALID != CLASS_INFRA_NON_RETRYABLE
  {
    assert CLASS_MODEL_OUTPUT_INVALID[0] == 'm' && CLASS_INFRA_RETRYABLE[0] == 'i' && CLASS_INFRA_NON_RETRYABLE[0] == 'i';
    assert CLASS_INFRA_RETRYABLE[6] == 'r' && CLASS_INFRA_NON_RETRYABLE[6] == 'n';
  }

  lemma FirstNotSpace(s: string)
    requires s != "" && 'A' <= s[0] <= 'z'
    ensures !Blank(s)
  {
    assert !IsSpace(s[0]);
  }

  lemma ClassNotBlank(c: string)
    requires KnownClass(c)
    ensures !Blank(c)
  {
    FirstNotSpace(c);
  }

  lemma {:induction false} FailureDetailsOk(e: ErrorValue, attemptCount: int)
    requires ErrorOk(e)
    ensures BodyOk(FailureDetails(e, attemptCount))
  {
    ClassesDiffer();
    var d := FailureDetails(e, attemptCount);
    match e {
      case CoreSemanticError(s) =>
        s.code.NameIsNotBlank();
        s.fault.MessageIsNotBlank();
      case ResponseSizeError(_, _) =>
        FirstNotSpace(d.message);
        FirstNotSpace(d.errorCode);
      case OtherError =>
        FirstNotSpace(d.message);
        FirstNotSpace(d.errorCode);
      case _ =>
        FirstNotSpace(d.errorCode);
    }
  }

  /** Temporal retries an activity error exactly when its record says so: the policy's list holds the other two classes. */
  lemma {:induction false} RetryPolicyAgrees(e: ErrorValue, attempt: int, references: seq<string>)
    requires ErrorOk(e)
    ensures var err := ToTemporalError(e, attempt, references);
            && (err.nonRetryable <==> !err.details.retryable)
            && (Retries(err) <==> err.details.retryable)
            && (err.details.retryable <==>
                err.errorType != CLASS_MODEL_OUTPUT_INVALID && err.errorType != CLASS_INFRA_NON_RETRYABLE)
            && (ReferencesOk(references) ==> BodyOk(err.details))
  {
    FailureDetailsOk(e, attempt);
    ClassesDiffer();
  }

  /** Which errors are worth another attempt, and the class each kind belongs to. */
  lemma {:induction false} ErrorClassification(e: ErrorValue, attempt: int, references: seq<string>)
    ensures var err := ToTemporalError(e, attempt, references);
            && (Retries(err) <==> e.OtherError? || (e.InfraError? && e.infraRetryable))
            && (err.details.retryable <==> Retries(err)) && (err.nonRetryable <==> !Retries(err))
            && (err.errorType == "model_output_invalid" <==> e.ModelOutputError? || e.CoreSemanticError?)
            && (err.errorType == "infra_non_retryable" <==> e.ResponseSizeError? || (e.InfraError? && !e.infraRetryable))
            && (err.errorType == "infra_retryable" <==> e.OtherError? || (e.InfraError? && e.infraRetryable))
            && err.details.errorClass == err.errorType
  {
    ClassesDiffer();
  }

  /** The record an error carries: its code, message and diagnostics, the attempt it was met on, and the references given. */
  lemma {:induction false} ErrorRecord(e: ErrorValue, attempt: int, references: seq<string>)
    ensures var d := ToTemporalError(e, attempt, references).details;
            && d.artifactReferences == references && d.workflowID == "" && d.stage == ""
            && (attempt > 0 ==> d.attemptCount == attempt) && (attempt <= 0 ==> d.attemptCount == 1)
            && match e
               case ModelOutputError(m) => d.errorCode == "model_output_invalid" && d.message == m && d.diagnostics == []
               case CoreSemanticError(s) =>
                 d.errorCode == s.code.Name() && d.message == s.fault.Message() && d.diagnostics == s.diagnostics
               case InfraError(m, _) => d.errorCode == "llm_infrastructure_error" && d.message == m && d.diagnostics == []
               case ResponseSizeError(limit, observed) =>
                 d.errorCode == "llm_response_too_large"
                 && d.diagnostics == [LimitDiagnostic("max_llm_response_bytes", limit, observed, "", "")]
               case OtherError =>
                 d.errorCode == "internal_operation_failed" && d.message == "internal operation failed" && d.diagnostics == []
  {
  }

  /** An error of the workflow's own, and one that carries no record, are recorded like any other error of the first attempt. */
  lemma {:induction false} WorkflowRecord(cause: Cause, workflowID: string, stage: string)
    ensures var d := WorkflowDetails(cause, workflowID, stage);
            && d.workflowID == workflowID && d.stage == stage
            && (cause.NoDetails? ==> d.errorClass == "infra_retryable" && d.errorCode == "internal_operation_failed")
            && (cause.OwnError? ==> d.(workflowID := "", stage := "") == ToTemporalError(cause.e, 1, []).details)
            && (cause.FromActivity? ==>
                  && d.errorClass == cause.error.details.errorClass && d.errorCode == cause.error.details.errorCode
                  && d.message == cause.error.details.message && d.retryable == cause.error.details.retryable
                  && d.diagnostics == cause.error.details.diagnostics
                  && d.artifactReferences == cause.error.details.artifactReferences)
  {
  }

  /** Two records are equal exactly if they agree in every field. */
  lemma EqualIsEquality(d: Details, other: Details)
    ensures d.Equal(other) <==> d == other
  {
  }

  /** Every artifact a record refers to is stored. */
  ghost predicate RefersTo(d: Details, stored: set<string>) {
    forall i | 0 <= i < |d.artifactReferences| :: d.artifactReferences[i] in stored
  }

  /** An activity's error: its record is valid and refers to stored artifacts only, and Temporal retries it iff the record
      says so. */
  ghost predicate CleanError(e: ActivityError, stored: set<string>) {
    BodyOk(e.details) && RefersTo(e.details, stored) && (Retries(e) <==> e.details.retryable)
  }

  lemma {:induction false} CleanErrorOf(e: ErrorValue, attempt: int, references: seq<string>, stored: set<string>)
    requires ErrorOk(e) && ReferencesOk(references) && forall i | 0 <= i < |references| :: references[i] in stored
    ensures CleanError(ToTemporalError(e, attempt, references), stored)
  {
    RetryPolicyAgrees(e, attempt, references);
  }

  /** The causes a workflow can meet while these artifacts are stored. */
  ghost predicate CauseOk(c: Cause, stored: set<string>) {
    match c
    case OwnError(e) => ErrorOk(e)
    case FromActivity(a) => CleanError(a, stored)
    case NoDetails => true
  }

  /** A record the store accepts, whose retry flag follows its class, and which refers to stored artifacts only. */
  ghost predicate RecordOk(d: Details, stored: set<string>) {
    DetailsOk(d) && (d.retryable <==> d.errorClass == CLASS_INFRA_RETRYABLE) && RefersTo(d, stored)
  }

  /** No workflow builds a record the store would refuse, or one that refers to anything that is not there. */
  lemma {:induction false} WorkflowDetailsOk(cause: Cause, stored: set<string>, workflowID: string, stage: string)
    requires CauseOk(cause, stored) && !Blank(workflowID) && !Blank(stage)
    ensures RecordOk(WorkflowDetails(cause, workflowID, stage), stored)
  {
    match cause {
      case OwnError(e) => FailureDetailsOk(e, 1);
      case FromActivity(_) =>
      case NoDetails => FailureDetailsOk(OtherError, 1);
    }
    ClassNotBlank(WorkflowDetails(cause, workflowID, stage).errorClass);
  }

  lemma {:induction false} StartFailureDetailsOk(workflowID: string)
    requires !Blank(workflowID)
    ensures DetailsOk(StartFailureDetails(workflowID))
    ensures StartFailureDetails(workflowID) == Details(workflowID, "start_workflow", "infra_non_retryable", "workflow_start_failed",
                                                       "workflow did not start", false, 1, [], [])
    ensures StartFailureDetails(workflowID).retryable <==> StartFailureDetails(workflowID).errorClass == CLASS_INFRA_RETRYABLE
  {
    ClassesDiffer();
    var d := StartFailureDetails(workflowID);
    FirstNotSpace(d.stage);
    FirstNotSpace(d.errorCode);
    FirstNotSpace(d.message);
    ClassNotBlank(d.errorClass);
  }
}
