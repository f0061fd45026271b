/** The HTTP handlers around the store: starting a workflow, and what is recorded when it definitely did not start. */
module Api {
  import opened Common
  import opened Types
  import opened Failures
  import opened Database
  import opened Calls
  import opened Effects
  import opened Reads
  import opened Repeats
  import opened Shown
  import Store

  // ---------------------------------------------------------------- starting a workflow

  /** How Temporal answers a start request. */
  datatype StartReply = Started | AlreadyStarted | StartFailed

  /** How it answers a describe request. */
  datatype DescribeReply = Described | NoSuchWorkflow | DescribeFailed

  /** What the handler is told: the workflow runs, it certainly does not, or nobody knows. */
  datatype StartOutcome = Runs | NotStarted | Unknown

  /** A workflow runs if it was started, by this request or another, or is found; it does not if starting failed and there is
      no such workflow. The describe request is only made when the start request failed for another reason than a running
      workflow. */
  method StartWorkflow(start: StartReply, describe: DescribeReply) returns (outcome: StartOutcome)
    ensures outcome == NotStarted <==> start == StartFailed && describe == NoSuchWorkflow
    ensures outcome == Runs <==> start != StartFailed || describe == Described
  {
    if start == Started {
      return Runs;
    }
    if start == AlreadyStarted {
      return Runs;
    }
    if describe == Described {
      return Runs;
    }
    if describe == NoSuchWorkflow {
      return NotStarted;
    }
    return Unknown;
  }

  function ChecklistStartFailure(id: string): (d: Details)
    ensures DetailsOk(d)
    ensures d == Details("checklist-" + id, "start_workflow", "infra_non_retryable", "workflow_start_failed",
                         "workflow did not start", false, 1, [], [])
  {
    var workflowID := "checklist-" + id;
    assert workflowID[0] == 'c';
    StartFailureDetailsOk(workflowID);
    StartFailureDetails(workflowID)
  }

  function EvaluationStartFailure(id: string): (d: Details)
    ensures DetailsOk(d)
    ensures d == Details("evaluation-" + id, "start_workflow", "infra_non_retryable", "workflow_start_failed",
                         "workflow did not start", false, 1, [], [])
  {
    var workflowID := "evaluation-" + id;
    assert workflowID[0] == 'e';
    StartFailureDetailsOk(workflowID);
    StartFailureDetails(workflowID)
  }

  /** Failing a running row with a valid record gets through: the row is failed, its record is there, and nothing else has
      changed. */
  lemma {:induction false} FailureGetsThrough(call: Call, db: Db)
    requires Inv(db) && (call.FailChecklist? || call.FailEvaluation?) && IsRunning(db, call) && DetailsOk(call.details)
    ensures Commits(call, db) && AtomicReply(call, db) == Acked
  {
    Store.WritesAlone(call, db);
    CommitsWhenReady(call, db);
    CommittedReply(call, db);
  }

  lemma FailedAfterCommit(call: Call, db: Db)
    requires (call.FailChecklist? || call.FailEvaluation?) && Commits(call, db) && IsRunning(db, call)
    ensures var after := AtomicResult(call, db);
            && LockStatus(after, call) == Some(Failed)
            && call.Entity() in after.failures && after.failures[call.Entity()] == call.details
  {
  }

  /** Starting the workflow of a checklist, and `persistDefinitiveStartFailure` when it certainly did not start. */
  method StartChecklist(store: Store.Store, id: string, start: StartReply, describe: DescribeReply) returns (code: int)
    requires store.Valid() && LockStatus(store.db, Call.FailChecklist(id, ChecklistStartFailure(id))) == Some(Running)
    modifies store
    ensures store.Valid() && Extends(old(store.db), store.db)
    ensures code == if start != StartFailed || describe == Described then 202 else 500
    ensures start == StartFailed && describe == NoSuchWorkflow ==>
              && LockStatus(store.db, Call.FailChecklist(id, ChecklistStartFailure(id))) == Some(Failed)
              && ChecklistEntity(id) in store.db.failures && store.db.failures[ChecklistEntity(id)] == ChecklistStartFailure(id)
    ensures !(start == StartFailed && describe == NoSuchWorkflow) ==> store.db == old(store.db)
  {
    ExtendsReflexive(store.db);
    var outcome := StartWorkflow(start, describe);
    code := if outcome == Runs then 202 else 500;
    if outcome == NotStarted {
      FailureGetsThrough(Call.FailChecklist(id, ChecklistStartFailure(id)), store.db);
      FailedAfterCommit(Call.FailChecklist(id, ChecklistStartFailure(id)), store.db);
      var persisted, refusal := store.FailChecklist(id, ChecklistStartFailure(id));
    }
  }

  lemma NewChecklist(db: Db, id: string, evaluationRuns: int)
    requires id !in db.checklists && evaluationRuns > 0 && evaluationRuns % 2 == 1
    ensures AtomicReply(Call.CreateChecklist(id, evaluationRuns), db) == Acked
    ensures var after := AtomicResult(Call.CreateChecklist(id, evaluationRuns), db);
            && id in after.checklists && after.checklists[id].status == Running
            && after.checklists[id].evaluationRuns == evaluationRuns
  {
  }

  /** The handler that creates a checklist; bodyOk says that the request decodes and its texts are not blank. The row is
      running, or failed with the API's record exactly if starting failed and there is no such workflow. */
  method CreateChecklist(store: Store.Store, bodyOk: bool, id: string, evaluationRuns: int, maxEvaluationRuns: int,
                         start: StartReply, describe: DescribeReply)
    returns (code: int)
    requires store.Valid() && id !in store.db.checklists
    modifies store
    ensures store.Valid() && Extends(old(store.db), store.db)
    ensures !bodyOk || !ValidEvaluationRuns(evaluationRuns, maxEvaluationRuns) ==> code == 400 && store.db == old(store.db)
    ensures bodyOk && ValidEvaluationRuns(evaluationRuns, maxEvaluationRuns) ==>
              && code == (if start != StartFailed || describe == Described then 202 else 500)
              && id in store.db.checklists && store.db.checklists[id].evaluationRuns == evaluationRuns
              && store.db.checklists[id].status == (if start == StartFailed && describe == NoSuchWorkflow then Failed else Running)
              && (ChecklistEntity(id) in store.db.failures <==> start == StartFailed && describe == NoSuchWorkflow)
              && (ChecklistEntity(id) in store.db.failures ==> store.db.failures[ChecklistEntity(id)] == ChecklistStartFailure(id))
  {
    ExtendsReflexive(store.db);
    if !bodyOk {
      return 400;
    }
    if !ValidEvaluationRuns(evaluationRuns, maxEvaluationRuns) {
      return 400;
    }
    ghost var before := store.db;
    NewChecklist(before, id, evaluationRuns);
    var reply := store.CreateChecklistForWorkflow(id, evaluationRuns);
    ghost var created := store.db;
    code := StartChecklist(store, id, start, describe);
    assert ChecklistKept(created, store.db, id);
    ExtendsTransitive(before, created, store.db);
    ChecklistRecordIff(store.db, id);
  }

  lemma ChecklistRecordIff(db: Db, id: string)
    requires Inv(db) && id in db.checklists
    ensures ChecklistEntity(id) in db.failures <==> db.checklists[id].status == Failed
  {
    assert ChecklistInv(db, id);
  }

  lemma EvaluationAfterStart(db: Db, id: string, checklistID: string, failed: bool)
    requires Inv(db)
    requires LockStatus(db, Call.FailEvaluation(id, checklistID, EvaluationStartFailure(id))) == Some(if failed then Failed else Running)
    ensures id in db.evaluations && db.evaluations[id].checklistID == checklistID
    ensures db.evaluations[id].status == if failed then Failed else Running
    ensures EvaluationEntity(id) in db.failures <==> failed
  {
    assert EvaluationInv(db, id);
  }

  lemma EvaluationFailureRecorded(db: Db, call: Call)
    requires Inv(db) && call.FailEvaluation? && LockStatus(db, call) == Some(Running) && DetailsOk(call.details)
    ensures var after := AtomicResult(call, db);
            && LockStatus(after, call) == Some(Failed)
            && call.Entity() in after.failures && after.failures[call.Entity()] == call.details
  {
    FailureGetsThrough(call, db);
    FailedAfterCommit(call, db);
  }

  /** Starting the workflow of an evaluation, and `persistDefinitiveStartFailure` when it certainly did not start. */
  method StartEvaluation(store: Store.Store, id: string, checklistID: string, start: StartReply, describe: DescribeReply)
    returns (code: int)
    requires store.Valid() && LockStatus(store.db, Call.FailEvaluation(id, checklistID, EvaluationStartFailure(id))) == Some(Running)
    modifies store
    ensures store.Valid() && Extends(old(store.db), store.db)
    ensures code == if start != StartFailed || describe == Described then 202 else 500
    ensures start == StartFailed && describe == NoSuchWorkflow ==>
              && LockStatus(store.db, Call.FailEvaluation(id, checklistID, EvaluationStartFailure(id))) == Some(Failed)
              && EvaluationEntity(id) in store.db.failures && store.db.failures[EvaluationEntity(id)] == EvaluationStartFailure(id)
    ensures !(start == StartFailed && describe == NoSuchWorkflow) ==> store.db == old(store.db)
  {
    ExtendsReflexive(store.db);
    var outcome := StartWorkflow(start, describe);
    code := if outcome == Runs then 202 else 500;
    if outcome == NotStarted {
      EvaluationFailureRecorded(store.db, Call.FailEvaluation(id, checklistID, EvaluationStartFailure(id)));
      var persisted, refusal := store.FailEvaluation(id, checklistID, EvaluationStartFailure(id));
    }
  }

  /** What creating an evaluation answers, and that a refusal leaves everything as it is. */
  lemma CreationAnswers(db: Db, id: string, checklistID: string)
    requires id !in db.evaluations
    ensures var call := Call.CreateEvaluation(id, checklistID);
            if checklistID !in db.checklists then AtomicReply(call, db) == NotFound && AtomicResult(call, db) == db
            else if db.checklists[checklistID].status != Succeeded then
              AtomicReply(call, db) == Conflict && AtomicResult(call, db) == db
            else
              && AtomicReply(call, db) == Acked
              && LockStatus(AtomicResult(call, db), Call.FailEvaluation(id, checklistID, EvaluationStartFailure(id))) == Some(Running)
  {
    Store.CreationAlone(Call.CreateEvaluation(id, checklistID), db);
  }

  /** The handler that creates an evaluation, for a checklist that has succeeded. */
  method CreateEvaluation(store: Store.Store, bodyOk: bool, id: string, checklistID: string,
                          start: StartReply, describe: DescribeReply)
    returns (code: int)
    requires store.Valid() && id !in store.db.evaluations
    modifies store
    ensures store.Valid() && Extends(old(store.db), store.db)
    ensures !bodyOk ==> code == 400 && store.db == old(store.db)
    ensures bodyOk && checklistID !in old(store.db).checklists ==> code == 404 && store.db == old(store.db)
    ensures bodyOk && checklistID in old(store.db).checklists && old(store.db).checklists[checklistID].status != Succeeded ==>
              code == 409 && store.db == old(store.db)
    ensures bodyOk && checklistID in old(store.db).checklists && old(store.db).checklists[checklistID].status == Succeeded ==>
              && code == (if start != StartFailed || describe == Described then 202 else 500)
              && id in store.db.evaluations && store.db.evaluations[id].checklistID == checklistID
              && store.db.evaluations[id].status == (if start == StartFailed && describe == NoSuchWorkflow then Failed else Running)
              && (EvaluationEntity(id) in store.db.failures <==> start == StartFailed && describe == NoSuchWorkflow)
              && (EvaluationEntity(id) in store.db.failures ==> store.db.failures[EvaluationEntity(id)] == EvaluationStartFailure(id))
  {
    ExtendsReflexive(store.db);
    if !bodyOk {
      return 400;
    }
    ghost var before := store.db;
    CreationAnswers(before, id, checklistID);
    var reply := store.CreateEvaluationForWorkflow(id, checklistID);
    if reply != Acked {
      return StatusFromError(reply);
    }
    ghost var created := store.db;
    code := StartEvaluation(store, id, checklistID, start, describe);
    ExtendsTransitive(before, created, store.db);
    EvaluationAfterStart(store.db, id, checklistID, start == StartFailed && describe == NoSuchWorkflow);
  }

  // ---------------------------------------------------------------- showing rows

  method GetChecklist(store: Store.Store, id: string) returns (response: Response)
    ensures response == Respond(AtomicReply(Call.GetChecklist(id), store.db))
    ensures store.Valid() ==> ShowsChecklist(response, store.db, id)
  {
    ReadsAlone(store.db, id);
    if store.Valid() {
      ChecklistIsShown(store.db, id);
    }
    var reply := store.GetChecklist(id);
    response := Respond(reply);
  }

  method GetEvaluation(store: Store.Store, id: string) returns (response: Response)
    ensures response == Respond(AtomicReply(Call.GetEvaluation(id), store.db))
    ensures store.Valid() ==> ShowsEvaluation(response, store.db, id)
  {
    ReadsAlone(store.db, id);
    if store.Valid() {
      EvaluationIsShown(store.db, id);
    }
    var reply := store.GetEvaluation(id);
    response := Respond(reply);
  }
}
