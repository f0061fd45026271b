/** The activities that end a row: each forwards to the store, and its error leaves as a Temporal error without references. */
module Terminals {
  import opened Common
  import opened Types
  import opened Validate
  import opened Score
  import opened Failures
  import opened Database
  import opened Calls
  import Store

  /** What an activity makes of the store's answer; refusal is the error of a failed validation. */
  function ResultOfReply(reply: Reply, refusal: Option<ErrorValue>, attempt: int): Result<(), ActivityError> {
    if reply == Acked then Success(())
    else Failure(ToTemporalError(if refusal.Some? then refusal.value else OtherError, attempt, []))
  }

  /** r is the result of an attempt whose call got this reply; read is what a call that recomputes a score had read. */
  ghost predicate Reports(r: Result<(), ActivityError>, call: Call, reply: Reply, read: Reply, attempt: int)
    requires call.Terminal()
  {
    match reply
    case Acked => r == Success(())
    case Rejected => exists e :: RejectedWith(call, read, e) && r == Failure(ToTemporalError(e, attempt, []))
    case _ => r == Failure(ToTemporalError(OtherError, attempt, []))
  }

  /** What an attempt reports has a valid record. It is never tried again exactly if the call was rejected for what a model
      said, and then carries the validation's own code; everything else is. */
  lemma {:induction false} ReportIsClean(r: Result<(), ActivityError>, call: Call, reply: Reply, read: Reply, attempt: int)
    requires call.Terminal() && Reports(r, call, reply, read, attempt)
    ensures r.Success? <==> reply == Acked
    ensures r.Failure? ==> CleanError(r.error, {})
    ensures r.Failure? ==> (!Retries(r.error) <==> reply == Rejected && RejectsOutput(call, read))
    ensures reply == Rejected && RejectsOutput(call, read) ==>
              r.Failure? && r.error.details.errorCode == RefusalCode(call, read).Name()
  {
    ClassesDiffer();
    if reply == Rejected {
      var e :| RejectedWith(call, read, e) && r == Failure(ToTemporalError(e, attempt, []));
      CleanErrorOf(e, attempt, [], {});
    } else {
      CleanErrorOf(OtherError, attempt, [], {});
    }
  }

  /** The code of a rejection. Content is to blame by the first of its lists that is not valid, a score by its votes unless only
      the questions can be; invalid limits, records and numbers of runs are no fault of a model. */
  lemma {:induction false} RejectionCodes(r: Result<(), ActivityError>, call: Call, read: Reply, attempt: int)
    requires call.Terminal() && Reports(r, call, Rejected, read, attempt)
    ensures r.Failure? && r.error.details.errorCode == match call
              case SucceedChecklist(_, c, limits) =>
                if !limits.Valid() then "internal_operation_failed"
                else if !DimensionsOk(c.dimensions, limits) then "invalid_dimension_analysis"
                else if !CandidatesOk(c.dimensions, c.candidates, limits) then "invalid_question_generation"
                else if !WeightsOk(c.candidates, c.weights, limits) then "invalid_weights"
                else "invalid_final_checklist"
              case SucceedEvaluation(_, _, votes, _) =>
                if !read.GotChecklist? || read.checklist.evaluationRuns <= 0 || read.checklist.evaluationRuns % 2 == 0
                then "internal_operation_failed"
                else if RunsInRange(votes, read.checklist.evaluationRuns) && JudgmentShapeOk(Bucket(votes, 1))
                        && !JudgeableQuestions(read.checklist.content.questions) then "invalid_final_checklist"
                else "invalid_judgments"
              case _ => "internal_operation_failed"
  {
    var e :| RejectedWith(call, read, e) && r == Failure(ToTemporalError(e, attempt, []));
    ErrorRecord(e, attempt, []);
    if e.CoreSemanticError? {
      e.semantic.code.NameIs();
    }
  }

  /** What an attempt reports whose call ran on its own. */
  ghost predicate ReportsAlone(r: Result<(), ActivityError>, call: Call, db: Db, attempt: int)
    requires call.Terminal()
  {
    Reports(r, call, AtomicReply(call, db), ReadBefore(call, Constant(db, LockSlot(call))), attempt)
  }

  method SucceedChecklist(store: Store.Store, id: string, content: Content, limits: ChecklistLimits, attempt: int)
    returns (r: Result<(), ActivityError>)
    requires store.Valid()
    modifies store
    ensures store.Valid() && Extends(old(store.db), store.db)
    ensures store.db == AtomicResult(Call.SucceedChecklist(id, content, limits), old(store.db))
    ensures ReportsAlone(r, Call.SucceedChecklist(id, content, limits), old(store.db), attempt)
  {
    var reply, refusal := store.SucceedChecklist(id, content, limits);
    r := ResultOfReply(reply, refusal, attempt);
  }

  method FailChecklist(store: Store.Store, id: string, details: Details, attempt: int) returns (r: Result<(), ActivityError>)
    requires store.Valid()
    modifies store
    ensures store.Valid() && Extends(old(store.db), store.db)
    ensures store.db == AtomicResult(Call.FailChecklist(id, details), old(store.db))
    ensures ReportsAlone(r, Call.FailChecklist(id, details), old(store.db), attempt)
  {
    var reply, refusal := store.FailChecklist(id, details);
    r := ResultOfReply(reply, refusal, attempt);
  }

  method SucceedEvaluation(store: Store.Store, id: string, checklistID: string, votes: seq<RunJudgment>, score: ScoreResult,
                           attempt: int)
    returns (r: Result<(), ActivityError>)
    requires store.Valid()
    modifies store
    ensures store.Valid() && Extends(old(store.db), store.db)
    ensures store.db == AtomicResult(Call.SucceedEvaluation(id, checklistID, votes, score), old(store.db))
    ensures ReportsAlone(r, Call.SucceedEvaluation(id, checklistID, votes, score), old(store.db), attempt)
  {
    var reply, refusal := store.SucceedEvaluation(id, checklistID, votes, score);
    r := ResultOfReply(reply, refusal, attempt);
  }

  method FailEvaluation(store: Store.Store, id: string, checklistID: string, details: Details, attempt: int)
    returns (r: Result<(), ActivityError>)
    requires store.Valid()
    modifies store
    ensures store.Valid() && Extends(old(store.db), store.db)
    ensures store.db == AtomicResult(Call.FailEvaluation(id, checklistID, details), old(store.db))
    ensures ReportsAlone(r, Call.FailEvaluation(id, checklistID, details), old(store.db), attempt)
  {
    var reply, refusal := store.FailEvaluation(id, checklistID, details);
    r := ResultOfReply(reply, refusal, attempt);
  }
}
