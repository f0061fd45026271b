/** Reading with several queries while others commit in between. */
module Reads {
  import opened Common
  import opened Types
  import opened Score
  import opened Aggregation
  import opened Failures
  import opened Database
  import opened Calls

  /** Every later state keeps what a has settled. */
  ghost predicate After(a: Db, seen: seq<Db>) {
    forall i | 0 <= i < |seen| :: Extends(a, seen[i])
  }

  /** Consistent states, each keeping what the earlier ones have settled. */
  ghost predicate Chain(seen: seq<Db>) {
    && (forall i | 0 <= i < |seen| :: Inv(seen[i]))
    && forall i, j | 0 <= i <= j < |seen| :: Extends(seen[i], seen[j])
  }

  ghost predicate TerminalChecklist(db: Db, id: string) {
    id in db.checklists && db.checklists[id].status != Running
  }

  ghost predicate TerminalEvaluation(db: Db, id: string) {
    id in db.evaluations && db.evaluations[id].status != Running
  }

  /** Reading a checklist that was terminal in a, whenever the queries run, is reading it in a. */
  lemma {:induction false} TerminalChecklistRead(a: Db, seen: seq<Db>, id: string)
    requires Inv(a) && After(a, seen) && |seen| == CHECKLIST_READS && TerminalChecklist(a, id)
    ensures ReadChecklist(seen, id) == ReadChecklist(Constant(a, CHECKLIST_READS), id)
  {
    forall i | 0 <= i < |seen| ensures SameReads(a, seen[i], id) {
      assert Extends(a, seen[i]);
      QueriesKept(a, seen[i], id);
      RecordKept(a, seen[i], id);
    }
    assert SameReads(a, seen[0], id) && SameReads(a, seen[1], id) && SameReads(a, seen[2], id);
    assert SameReads(a, seen[3], id) && SameReads(a, seen[4], id) && SameReads(a, seen[5], id);
    SameReadsSameReply(a, seen, id);
  }

  /** Each of the six queries returns the same in both states. */
  ghost predicate SameReads(a: Db, b: Db, id: string) {
    && id in a.checklists && id in b.checklists && a.checklists[id] == b.checklists[id]
    && (a.checklists[id].status == Failed ==>
          ChecklistEntity(id) in a.failures && ChecklistEntity(id) in b.failures
          && a.failures[ChecklistEntity(id)] == b.failures[ChecklistEntity(id)])
    && QueryDimensions(a, id) == QueryDimensions(b, id) && QueryCandidates(a, id) == QueryCandidates(b, id)
    && QueryWeights(a, id) == QueryWeights(b, id) && QueryQuestions(a, id) == QueryQuestions(b, id)
  }

  lemma RecordKept(a: Db, b: Db, id: string)
    requires Inv(a) && Extends(a, b) && id in a.checklists
    ensures a.checklists[id].status == Failed ==>
              ChecklistEntity(id) in a.failures && ChecklistEntity(id) in b.failures
              && a.failures[ChecklistEntity(id)] == b.failures[ChecklistEntity(id)]
  {
    assert ChecklistInv(a, id);
    assert ChecklistEntity(id) in a.failures ==> FailureKept(a, b, ChecklistEntity(id));
  }

  lemma SameReadsSameReply(a: Db, seen: seq<Db>, id: string)
    requires |seen| == CHECKLIST_READS
    requires SameReads(a, seen[0], id) && SameReads(a, seen[1], id) && SameReads(a, seen[2], id)
    requires SameReads(a, seen[3], id) && SameReads(a, seen[4], id) && SameReads(a, seen[5], id)
    ensures ReadChecklist(seen, id) == ReadChecklist(Constant(a, CHECKLIST_READS), id)
  {
  }

  // ---------------------------------------------------------------- evaluations

  /** The row, the failure record and the votes are the same in both states. */
  ghost predicate SameEvaluationReads(a: Db, b: Db, id: string) {
    && id in a.evaluations && id in b.evaluations && a.evaluations[id] == b.evaluations[id]
    && (a.evaluations[id].status == Failed ==>
          EvaluationEntity(id) in a.failures && EvaluationEntity(id) in b.failures
          && a.failures[EvaluationEntity(id)] == b.failures[EvaluationEntity(id)])
    && QueryJudgments(a, id) == QueryJudgments(b, id)
  }

  lemma TerminalEvaluationKept(a: Db, b: Db, id: string)
    requires Inv(a) && Extends(a, b) && TerminalEvaluation(a, id)
    ensures SameEvaluationReads(a, b, id)
  {
    assert EvaluationInv(a, id);
    assert EvaluationKept(a, b, id);
    assert EvaluationEntity(id) in a.failures ==> FailureKept(a, b, EvaluationEntity(id));
  }

  lemma {:induction false} SameEvaluationReply(a: Db, seen: seq<Db>, id: string)
    requires |seen| == EVALUATION_READS && id in a.evaluations
    requires SameEvaluationReads(a, seen[0], id) && SameEvaluationReads(a, seen[1], id) && SameEvaluationReads(a, seen[2], id)
    requires a.evaluations[id].status == Succeeded ==>
               ReadChecklist(seen[3..], a.evaluations[id].checklistID) ==
               ReadChecklist(Constant(a, CHECKLIST_READS), a.evaluations[id].checklistID)
    ensures ReadEvaluation(seen, id) == ReadEvaluation(Constant(a, EVALUATION_READS), id)
  {
    var alone := Constant(a, EVALUATION_READS);
    ConstantSlices(a, EVALUATION_READS, 3);
    EvaluationRowsAlone(a, seen, alone, id);
    SameRowsSameReply(seen, alone, id);
  }

  lemma EvaluationRowsAlone(a: Db, seen: seq<Db>, alone: seq<Db>, id: string)
    requires |seen| == |alone| == EVALUATION_READS && alone[0] == alone[1] == alone[2] == a
    requires SameEvaluationReads(a, seen[0], id) && SameEvaluationReads(a, seen[1], id) && SameEvaluationReads(a, seen[2], id)
    ensures SameRows(seen, alone, id)
  {
  }

  /** The row, the failure record and the votes the two reads see are the same. */
  ghost predicate SameRows(seen: seq<Db>, other: seq<Db>, id: string)
    requires |seen| == |other| == EVALUATION_READS
  {
    && id in seen[0].evaluations && id in other[0].evaluations && seen[0].evaluations[id] == other[0].evaluations[id]
    && (seen[0].evaluations[id].status == Failed ==>
          EvaluationEntity(id) in seen[1].failures && EvaluationEntity(id) in other[1].failures
          && seen[1].failures[EvaluationEntity(id)] == other[1].failures[EvaluationEntity(id)])
    && QueryJudgments(seen[2], id) == QueryJudgments(other[2], id)
  }

  lemma SameRowsSameReply(seen: seq<Db>, other: seq<Db>, id: string)
    requires |seen| == |other| == EVALUATION_READS && SameRows(seen, other, id)
    requires var row := seen[0].evaluations[id];
             row.status == Succeeded ==> ReadChecklist(seen[3..], row.checklistID) == ReadChecklist(other[3..], row.checklistID)
    ensures ReadEvaluation(seen, id) == ReadEvaluation(other, id)
  {
  }

  /** Every evaluation belongs to a succeeded checklist. */
  lemma ChecklistOfEvaluation(db: Db, id: string)
    requires Inv(db) && id in db.evaluations
    ensures db.evaluations[id].checklistID in db.checklists
    ensures db.checklists[db.evaluations[id].checklistID].status == Succeeded
  {
    assert EvaluationInv(db, id);
  }

  lemma AfterSuffix(a: Db, seen: seq<Db>, k: nat)
    requires After(a, seen) && k <= |seen|
    ensures After(a, seen[k..])
  {
    forall i | 0 <= i < |seen| - k ensures Extends(a, seen[k..][i]) {
      assert seen[k..][i] == seen[i + k];
    }
  }

  lemma ChainAfter(seen: seq<Db>)
    requires Chain(seen) && seen != []
    ensures Inv(seen[0]) && After(seen[0], seen)
  {
  }

  /** Reading an evaluation that was terminal in a, whenever the queries run, is reading it in a. */
  lemma {:induction false} TerminalEvaluationRead(a: Db, seen: seq<Db>, id: string)
    requires Inv(a) && After(a, seen) && |seen| == EVALUATION_READS && TerminalEvaluation(a, id)
    ensures ReadEvaluation(seen, id) == ReadEvaluation(Constant(a, EVALUATION_READS), id)
  {
    assert Extends(a, seen[0]) && Extends(a, seen[1]) && Extends(a, seen[2]);
    TerminalEvaluationKept(a, seen[0], id);
    TerminalEvaluationKept(a, seen[1], id);
    TerminalEvaluationKept(a, seen[2], id);
    ChecklistOfEvaluation(a, id);
    AfterSuffix(a, seen, 3);
    TerminalChecklistRead(a, seen[3..], a.evaluations[id].checklistID);
    SameEvaluationReply(a, seen, id);
  }

  /** What was persisted when the evaluation succeeded: its votes aggregated in the order they were submitted. */
  ghost function StoredResult(db: Db, id: string): AggregationResult
    requires id in db.evaluations && db.evaluations[id].checklistID in db.checklists && Scored(db, id)
  {
    var c := db.evaluations[id].checklistID;
    Aggregate(QueryQuestions(db, c), Rows(db.judgments, id), db.checklists[c].evaluationRuns)
  }

  lemma {:induction false} RescoreScored(db: Db, id: string)
    requires id in db.evaluations && db.evaluations[id].checklistID in db.checklists && Scored(db, id)
    ensures var c := db.evaluations[id].checklistID;
            Accepted(QueryQuestions(db, c), QueryJudgments(db, id), db.checklists[c].evaluationRuns)
            && Aggregate(QueryQuestions(db, c), QueryJudgments(db, id), db.checklists[c].evaluationRuns) == StoredResult(db, id)
  {
    var c := db.evaluations[id].checklistID;
    AggregatePermutation(QueryQuestions(db, c), Rows(db.judgments, id), QueryJudgments(db, id), db.checklists[c].evaluationRuns);
  }

  /** Reloading a succeeded evaluation never errors, and recomputes exactly what was persisted: the votes come back in
      another order, but the points, the rate, the failed ids and the aggregated answers are the same. */
  lemma {:induction false} Reload(db: Db, id: string)
    requires Inv(db) && id in db.evaluations && db.evaluations[id].status == Succeeded
    ensures db.evaluations[id].checklistID in db.checklists && Scored(db, id)
    ensures var read := ReadEvaluation(Constant(db, EVALUATION_READS), id);
            && read.GotEvaluation?
            && read.evaluation.checklistID == db.evaluations[id].checklistID
            && read.evaluation.status == Succeeded
            && read.evaluation.runJudgments == QueryJudgments(db, id)
            && read.evaluation.judgments == StoredResult(db, id).judgments
            && read.evaluation.failedQuestionIDs == StoredResult(db, id).score.failedQuestionIDs
            && read.evaluation.points == Some(PointsOf(StoredResult(db, id).score))
  {
    SucceededIsScored(db, id);
    ReloadScored(db, id);
    PointsOfScored(db, id);
  }

  lemma SucceededIsScored(db: Db, id: string)
    requires Inv(db) && id in db.evaluations && db.evaluations[id].status == Succeeded
    ensures db.evaluations[id].checklistID in db.checklists && Scored(db, id)
    ensures db.checklists[db.evaluations[id].checklistID].status == Succeeded
  {
    assert EvaluationInv(db, id);
  }

  /** A succeeded evaluation as it is read, before its votes are aggregated. */
  ghost function Unaggregated(db: Db, id: string): Evaluation
    requires id in db.evaluations
  {
    var row := db.evaluations[id];
    Evaluation(id, row.checklistID, row.status, row.answerArtifactKey, row.points, None, QueryJudgments(db, id), [], [])
  }

  lemma ReadOfSucceeded(db: Db, seen: seq<Db>, id: string)
    requires |seen| == EVALUATION_READS && seen[0] == seen[1] == seen[2] == db
    requires id in db.evaluations && db.evaluations[id].status == Succeeded
    ensures ReadEvaluation(seen, id) == Rescore(Unaggregated(db, id), ReadChecklist(seen[3..], db.evaluations[id].checklistID))
  {
  }

  lemma {:induction false} ReadOfSucceededAlone(db: Db, id: string)
    requires id in db.evaluations && db.evaluations[id].status == Succeeded
    ensures ReadEvaluation(Constant(db, EVALUATION_READS), id)
              == Rescore(Unaggregated(db, id), ReadChecklist(Constant(db, CHECKLIST_READS), db.evaluations[id].checklistID))
  {
    ConstantSlices(db, EVALUATION_READS, 3);
    ReadOfSucceeded(db, Constant(db, EVALUATION_READS), id);
  }

  lemma ReadOfScored(db: Db, c: string)
    requires c in db.checklists && db.checklists[c].status == Succeeded
    ensures var read := ReadChecklist(Constant(db, CHECKLIST_READS), c);
            && read.GotChecklist? && read.checklist.content.questions == QueryQuestions(db, c)
            && read.checklist.evaluationRuns == db.checklists[c].evaluationRuns
  {
  }

  lemma {:induction false} ReloadScored(db: Db, id: string)
    requires id in db.evaluations && db.evaluations[id].status == Succeeded
    requires db.evaluations[id].checklistID in db.checklists && Scored(db, id)
    requires db.checklists[db.evaluations[id].checklistID].status == Succeeded
    ensures ReadEvaluation(Constant(db, EVALUATION_READS), id)
              == GotEvaluation(Unaggregated(db, id).(judgments := StoredResult(db, id).judgments,
                                                     failedQuestionIDs := StoredResult(db, id).score.failedQuestionIDs))
  {
    ReadOfSucceededAlone(db, id);
    ReadOfScored(db, db.evaluations[id].checklistID);
    RescoreScored(db, id);
  }

  lemma PointsOfScored(db: Db, id: string)
    requires id in db.evaluations && db.evaluations[id].checklistID in db.checklists && Scored(db, id)
    ensures db.evaluations[id].points == Some(PointsOf(StoredResult(db, id).score))
  {
  }

  // ---------------------------------------------------------------- responses

  /** What a GET shows: a failure only when failed, results only when succeeded. */
  datatype Response =
    | ErrorStatus(code: int)
    | ChecklistShown(id: string, status: Status, evaluationRuns: int, failure: Option<Details>, content: Option<Content>)
    | EvaluationShown(id: string, checklistID: string, status: Status, failure: Option<Details>, points: Option<Points>,
                      failedQuestionIDs: Option<seq<string>>, judgments: seq<AggregatedJudgment>)

  /** `statusFromError`. */
  function StatusFromError(reply: Reply): int {
    match reply
    case NotFound => 404
    case Conflict => 409
    case _ => 500
  }

  function Respond(reply: Reply): Response {
    match reply
    case GotChecklist(c) =>
      ChecklistShown(c.id, c.status, c.evaluationRuns,
                     if c.status == Failed then c.failure else None, if c.status == Succeeded then Some(c.content) else None)
    case GotEvaluation(e) =>
      EvaluationShown(e.id, e.checklistID, e.status,
                      if e.status == Failed then e.failure else None, if e.status == Succeeded then e.points else None,
                      if e.status == Succeeded then Some(e.failedQuestionIDs) else None,
                      if e.status == Succeeded then e.judgments else [])
    case _ => ErrorStatus(StatusFromError(reply))
  }

  lemma ReadsAlone(db: Db, id: string)
    ensures AtomicReply(Call.GetChecklist(id), db) == ReadChecklist(Constant(db, CHECKLIST_READS), id)
    ensures AtomicReply(Call.GetEvaluation(id), db) == ReadEvaluation(Constant(db, EVALUATION_READS), id)
  {
  }

  /** GET of a checklist shows the state at its first query, whatever commits before its other five. An error is shown
      only when there is no such checklist, and a failed one always comes with its record. */
  lemma {:induction false} GetChecklistIsAtomic(seen: seq<Db>, id: string)
    requires Chain(seen) && |seen| == CHECKLIST_READS
    ensures Respond(ReadChecklist(seen, id)) == Respond(ReadChecklist(Constant(seen[0], CHECKLIST_READS), id))
    ensures ReadChecklist(seen, id).GotChecklist? <==> id in seen[0].checklists
    ensures id !in seen[0].checklists ==> Respond(ReadChecklist(seen, id)) == ErrorStatus(404)
  {
    ChainAfter(seen);
    if TerminalChecklist(seen[0], id) {
      TerminalChecklistRead(seen[0], seen, id);
      RecordKept(seen[0], seen[0], id);
    }
  }

  /** GET of an evaluation shows the state at its first query, whatever commits before its other eight. */
  lemma {:induction false} GetEvaluationIsAtomic(seen: seq<Db>, id: string)
    requires Chain(seen) && |seen| == EVALUATION_READS
    ensures Respond(ReadEvaluation(seen, id)) == Respond(ReadEvaluation(Constant(seen[0], EVALUATION_READS), id))
    ensures ReadEvaluation(seen, id).GotEvaluation? <==> id in seen[0].evaluations
    ensures id !in seen[0].evaluations ==> Respond(ReadEvaluation(seen, id)) == ErrorStatus(404)
  {
    ChainAfter(seen);
    if TerminalEvaluation(seen[0], id) {
      TerminalEvaluationRead(seen[0], seen, id);
      TerminalEvaluationIsRead(seen[0], id);
    } else {
      UnfinishedEvaluationRead(seen, id);
    }
  }

  lemma UnfinishedEvaluationRead(seen: seq<Db>, id: string)
    requires |seen| == EVALUATION_READS && !TerminalEvaluation(seen[0], id)
    ensures Respond(ReadEvaluation(seen, id)) == Respond(ReadEvaluation(Constant(seen[0], EVALUATION_READS), id))
    ensures ReadEvaluation(seen, id).GotEvaluation? <==> id in seen[0].evaluations
    ensures id !in seen[0].evaluations ==> Respond(ReadEvaluation(seen, id)) == ErrorStatus(404)
  {
  }

  lemma {:induction false} TerminalEvaluationIsRead(db: Db, id: string)
    requires Inv(db) && TerminalEvaluation(db, id)
    ensures ReadEvaluation(Constant(db, EVALUATION_READS), id).GotEvaluation?
  {
    if db.evaluations[id].status == Succeeded {
      Reload(db, id);
    } else {
      ExtendsReflexive(db);
      TerminalEvaluationKept(db, db, id);
    }
  }
}
