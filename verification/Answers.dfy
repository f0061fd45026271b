/** What every call answers on its own, and what it leaves behind, in terms of the tables. */
module Answers {
  import opened Common
  import opened Seqs
  import opened Types
  import opened Score
  import opened Aggregation
  import opened Failures
  import opened Database
  import opened Calls
  import opened Effects
  import opened Reads
  import opened Store
  import opened Repeats
  import opened Linear
  import opened Safety
  import Keys

  // ---------------------------------------------------------------- what is left behind

  /** A commit adds or replaces the rows of its own entity, and nothing else. */
  lemma {:induction false} CommitLeaves(call: Call, db: Db)
    requires Effect(call, db).Some?
    ensures var after := Effect(call, db).value;
            match call
            case CreateChecklist(id, runs) =>
              after == db.(checklists := db.checklists[id := ChecklistRow(Running, runs, Keys.ChecklistTaskKey(id),
                                                                          Keys.ChecklistContextKey(id))])
            case CreateEvaluation(id, c) =>
              after == db.(evaluations := db.evaluations[id := EvaluationRow(c, Running, Keys.EvaluationAnswerKey(id), None)])
            case SucceedChecklist(id, c, _) =>
              && id in db.checklists
              && after == db.(checklists := db.checklists[id := db.checklists[id].(status := Succeeded)],
                              dimensions := db.dimensions[id := c.dimensions], candidates := db.candidates[id := c.candidates],
                              weights := db.weights[id := c.weights], questions := db.questions[id := c.questions])
            case FailChecklist(id, d) =>
              && id in db.checklists
              && after == db.(checklists := db.checklists[id := db.checklists[id].(status := Failed)],
                              failures := db.failures[ChecklistEntity(id) := d])
            case SucceedEvaluation(id, _, votes, s) =>
              && id in db.evaluations
              && after == db.(evaluations := db.evaluations[id := db.evaluations[id].(
                                status := Succeeded,
                                points := Some(Points(s.satisfiedPoints, s.totalPossiblePoints, s.checklistPassRate)))],
                              judgments := db.judgments[id := votes])
            case FailEvaluation(id, _, d) =>
              && id in db.evaluations
              && after == db.(evaluations := db.evaluations[id := db.evaluations[id].(status := Failed, points := None)],
                              failures := db.failures[EvaluationEntity(id) := d])
            case _ => false
  {
  }

  /** A call commits exactly if it is acknowledged and, if it ends a row, finds that running; otherwise it changes nothing. */
  lemma {:induction false} LeavesIff(call: Call, db: Db)
    requires !call.GetChecklist? && !call.GetEvaluation?
    ensures if AtomicReply(call, db) == Acked && (call.Terminal() ==> IsRunning(db, call))
            then Effect(call, db) == Some(AtomicResult(call, db)) else AtomicResult(call, db) == db
  {
    if call.Terminal() {
      TerminalLeaves(call, db);
    } else if call.CreateEvaluation? {
      CreationAlone(call, db);
    }
  }

  lemma {:induction false} TerminalLeaves(call: Call, db: Db)
    requires call.Terminal()
    ensures if AtomicReply(call, db) == Acked && IsRunning(db, call)
            then Effect(call, db) == Some(AtomicResult(call, db)) else AtomicResult(call, db) == db
  {
    WritesAlone(call, db);
    if IsRunning(db, call) {
      RunningAnswer(call, db);
    }
  }

  lemma {:induction false} RunningAnswer(call: Call, db: Db)
    requires call.Terminal() && IsRunning(db, call)
    ensures AtomicReply(call, db) == Acked <==> Commits(call, db)
  {
    if call.SucceedEvaluation? {
      RunningScore(call, db);
    } else {
      RunningLocksFirst(call, db);
    }
  }

  lemma {:induction false} RunningLocksFirst(call: Call, db: Db)
    requires LocksFirst(call) && IsRunning(db, call)
    ensures AtomicReply(call, db) == Acked <==> Commits(call, db)
  {
    AloneIfLocksFirst(call, db);
    if ValidAlone(call, db) {
      AloneValidated(call, db);
    } else {
      RejectedHasNoEffect(call, db);
    }
  }

  lemma {:induction false} RunningScore(call: Call, db: Db)
    requires call.SucceedEvaluation? && IsRunning(db, call)
    ensures AtomicReply(call, db) == Acked <==> Commits(call, db)
  {
    if ValidAlone(call, db) {
      AloneIfValid(call, db);
      AloneValidated(call, db);
    } else {
      UnscoredAlone(call, db);
    }
  }

  // ---------------------------------------------------------------- what is answered

  lemma {:induction false} CreateChecklistAnswers(db: Db, id: string, runs: int)
    ensures AtomicReply(Call.CreateChecklist(id, runs), db) ==
            if runs <= 0 || runs % 2 == 0 then Rejected else if id in db.checklists then SqlFailure else Acked
  {
  }

  lemma {:induction false} CreateEvaluationAnswers(db: Db, id: string, checklistID: string)
    ensures AtomicReply(Call.CreateEvaluation(id, checklistID), db) ==
            if checklistID !in db.checklists then NotFound
            else if db.checklists[checklistID].status != Succeeded then Conflict
            else if id in db.evaluations then SqlFailure
            else Acked
  {
    CreationAlone(Call.CreateEvaluation(id, checklistID), db);
  }

  /** A call that does not pass its validation is rejected before anything else. */
  lemma {:induction false} InvalidIsRejected(call: Call, db: Db)
    requires LocksFirst(call) && !ValidAlone(call, db)
    ensures AtomicReply(call, db) == Rejected
  {
    AloneIfLocksFirst(call, db);
    RejectedHasNoEffect(call, db);
  }

  /** A valid one finds no row, a running one, or one that ended this way or otherwise. */
  lemma {:induction false} ValidAnswers(call: Call, db: Db)
    requires Inv(db) && call.Terminal() && ValidAlone(call, db)
    ensures !RowExists(db, call) ==> AtomicReply(call, db) == NotFound
    ensures RowExists(db, call) && !IsRunning(db, call) ==> AtomicReply(call, db) == if Matches(call, db) then Acked else Conflict
    ensures IsRunning(db, call) ==>
              AtomicReply(call, db) == if call.SucceedChecklist? ==> DistinctOrdinals(call.content) then Acked else SqlFailure
  {
    if RowExists(db, call) && !IsRunning(db, call) {
      RepeatedCall(call, db);
    } else if call.SucceedChecklist? {
      AloneIfLocksFirst(call, db);
      AloneValidated(call, db);
      if IsRunning(db, call) {
        CommitsWhenReady(call, db);
      }
    } else {
      ValidIsNeverRefused(call, db);
    }
  }

  lemma {:induction false} SucceedChecklistAnswers(db: Db, id: string, c: Content, limits: ChecklistLimits)
    requires Inv(db)
    ensures AtomicReply(Call.SucceedChecklist(id, c, limits), db) ==
            if !ContentArgsOk(c, limits) then Rejected
            else if id !in db.checklists then NotFound
            else if db.checklists[id].status == Running then if DistinctOrdinals(c) then Acked else SqlFailure
            else if db.checklists[id].status == Succeeded
                    && c == Content(QueryDimensions(db, id), QueryCandidates(db, id), QueryWeights(db, id), QueryQuestions(db, id))
            then Acked
            else Conflict
  {
    var call := Call.SucceedChecklist(id, c, limits);
    if ContentArgsOk(c, limits) {
      ValidAnswers(call, db);
    } else {
      InvalidIsRejected(call, db);
    }
  }

  lemma RecordsOfFailed(db: Db, id: string)
    requires Inv(db)
    ensures id in db.checklists ==> (ChecklistEntity(id) in db.failures <==> db.checklists[id].status == Failed)
    ensures id in db.evaluations ==> (EvaluationEntity(id) in db.failures <==> db.evaluations[id].status == Failed)
  {
    assert id in db.checklists ==> ChecklistInv(db, id);
    assert id in db.evaluations ==> EvaluationInv(db, id);
  }

  lemma {:induction false} FailChecklistAnswers(db: Db, id: string, d: Details)
    requires Inv(db)
    ensures AtomicReply(Call.FailChecklist(id, d), db) ==
            if !DetailsOk(d) then Rejected
            else if id !in db.checklists then NotFound
            else if db.checklists[id].status == Running then Acked
            else if ChecklistEntity(id) in db.failures && db.failures[ChecklistEntity(id)] == d then Acked
            else Conflict
  {
    var call := Call.FailChecklist(id, d);
    if DetailsOk(d) {
      ValidAnswers(call, db);
      RecordsOfFailed(db, id);
    } else {
      InvalidIsRejected(call, db);
    }
  }

  lemma {:induction false} FailEvaluationAnswers(db: Db, id: string, checklistID: string, d: Details)
    requires Inv(db)
    ensures AtomicReply(Call.FailEvaluation(id, checklistID, d), db) ==
            if !DetailsOk(d) then Rejected
            else if id !in db.evaluations || db.evaluations[id].checklistID != checklistID then NotFound
            else if db.evaluations[id].status == Running then Acked
            else if EvaluationEntity(id) in db.failures && db.failures[EvaluationEntity(id)] == d then Acked
            else Conflict
  {
    var call := Call.FailEvaluation(id, checklistID, d);
    if DetailsOk(d) {
      ValidAnswers(call, db);
      RecordsOfFailed(db, id);
    } else {
      InvalidIsRejected(call, db);
    }
  }

  /** Whether a score is valid, in terms of the tables. */
  lemma {:induction false} ScoreIsValidIff(call: Call, db: Db)
    requires Inv(db) && call.SucceedEvaluation?
    ensures ValidAlone(call, db) <==>
            && call.checklistID in db.checklists
            && var qs, runs := QueryQuestions(db, call.checklistID), db.checklists[call.checklistID].evaluationRuns;
               Accepted(qs, call.votes, runs) && call.score == Aggregate(qs, call.votes, runs).score
  {
    ValidAloneIsMatch(call, db);
    if call.checklistID in db.checklists {
      WholeRead(db, call.checklistID);
    }
  }

  lemma {:induction false} InvalidScoreAnswers(call: Call, db: Db)
    requires Inv(db) && call.SucceedEvaluation? && !ValidAlone(call, db)
    ensures AtomicReply(call, db) == if call.checklistID in db.checklists then Rejected else NotFound
  {
    UnscoredAlone(call, db);
    if call.checklistID in db.checklists {
      WholeRead(db, call.checklistID);
    }
  }

  lemma {:induction false} ValidScoreAnswers(call: Call, db: Db)
    requires Inv(db) && call.SucceedEvaluation? && ValidAlone(call, db)
    ensures AtomicReply(call, db) ==
            if call.id !in db.evaluations || db.evaluations[call.id].checklistID != call.checklistID then NotFound
            else if db.evaluations[call.id].status == Running then Acked
            else if db.evaluations[call.id].status == Succeeded && Permutation(Rows(db.judgments, call.id), call.votes) then Acked
            else Conflict
  {
    ValidAnswers(call, db);
  }

  /** The score is compared before the row is looked at. */
  lemma {:induction false} SucceedEvaluationAnswers(db: Db, id: string, checklistID: string, votes: seq<RunJudgment>, score: ScoreResult)
    requires Inv(db)
    ensures AtomicReply(Call.SucceedEvaluation(id, checklistID, votes, score), db) ==
            if checklistID !in db.checklists then NotFound
            else
              var qs, runs := QueryQuestions(db, checklistID), db.checklists[checklistID].evaluationRuns;
              if !Accepted(qs, votes, runs) || score != Aggregate(qs, votes, runs).score then Rejected
              else if id !in db.evaluations || db.evaluations[id].checklistID != checklistID then NotFound
              else if db.evaluations[id].status == Running then Acked
              else if db.evaluations[id].status == Succeeded && Permutation(Rows(db.judgments, id), votes) then Acked
              else Conflict
  {
    var call := Call.SucceedEvaluation(id, checklistID, votes, score);
    ScoreIsValidIff(call, db);
    if ValidAlone(call, db) {
      ValidScoreAnswers(call, db);
    } else {
      InvalidScoreAnswers(call, db);
    }
  }
}
