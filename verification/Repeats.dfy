/** Repeating a terminal call: which repetitions are acknowledged, and that none changes anything. */
module Repeats {
  import opened Common
  import opened Seqs
  import opened Types
  import opened Validate
  import opened Score
  import opened Aggregation
  import opened Database
  import opened Calls
  import opened Effects
  import opened Reads
  import opened Store

  // ---------------------------------------------------------------- the order content is read back in

  function QueryContent(db: Db, id: string): Content {
    Content(QueryDimensions(db, id), QueryCandidates(db, id), QueryWeights(db, id), QueryQuestions(db, id))
  }

  ghost predicate InStoredOrder(c: Content) {
    && SortedBy(c.dimensions, DimensionLe)
    && SortedBy(c.candidates, CandidateLe)
    && SortedBy(c.weights, WeightOrder(c.candidates))
    && SortedBy(c.questions, QuestionLe)
  }

  ghost predicate RowsAre(db: Db, id: string, c: Content) {
    && Rows(db.dimensions, id) == c.dimensions && Rows(db.candidates, id) == c.candidates
    && Rows(db.weights, id) == c.weights && Rows(db.questions, id) == c.questions
  }

  lemma {:induction false} JoinKeepsAll(ws: seq<Weight>, cs: seq<CandidateQuestion>)
    requires forall i | 0 <= i < |ws| :: ws[i].candidateQuestionID in CandidateIds(cs)
    ensures JoinWeights(ws, cs) == ws
  {
    if ws != [] {
      var last := ws[|ws| - 1];
      JoinKeepsAll(ws[..|ws| - 1], cs);
      assert FindCandidate(cs, last.candidateQuestionID).Some? by {
        var k :| 0 <= k < |cs| && cs[k].id == last.candidateQuestionID;
        assert CandidateKey(cs[k]) == last.candidateQuestionID;
      }
    }
  }

  /** Content is read back as it was written exactly when it was written in stored order. */
  lemma {:induction false} ReadBackIff(db: Db, id: string, c: Content)
    requires RowsAre(db, id, c) && WeightRowsOk(c.weights, CandidateIds(c.candidates))
    ensures QueryContent(db, id) == c <==> InStoredOrder(c)
  {
    JoinKeepsAll(c.weights, c.candidates);
    SortByFixedIff(c.dimensions, DimensionLe);
    SortByFixedIff(c.candidates, CandidateLe);
    SortByFixedIff(c.weights, WeightOrder(c.candidates));
    SortByFixedIff(c.questions, QuestionLe);
  }

  /** What is read back are the rows that were written. */
  lemma {:induction false} ReadBackSameRows(db: Db, id: string)
    requires WeightRowsOk(Rows(db.weights, id), CandidateIds(Rows(db.candidates, id)))
    ensures Permutation(QueryDimensions(db, id), Rows(db.dimensions, id))
    ensures Permutation(QueryCandidates(db, id), Rows(db.candidates, id))
    ensures Permutation(QueryWeights(db, id), Rows(db.weights, id))
    ensures Permutation(QueryQuestions(db, id), Rows(db.questions, id))
  {
    JoinKeepsAll(Rows(db.weights, id), Rows(db.candidates, id));
  }

  // ---------------------------------------------------------------- repetitions

  /** The terminal row already says what the call wants to say. */
  ghost predicate Matches(call: Call, db: Db)
    requires call.Terminal() && RowExists(db, call)
  {
    match call
    case SucceedChecklist(id, c, _) => db.checklists[id].status == Succeeded && c == QueryContent(db, id)
    case FailChecklist(id, d) =>
      && db.checklists[id].status == Failed
      && ChecklistEntity(id) in db.failures && db.failures[ChecklistEntity(id)] == d
    case SucceedEvaluation(id, _, votes, _) =>
      db.evaluations[id].status == Succeeded && Permutation(Rows(db.judgments, id), votes)
    case FailEvaluation(id, _, d) =>
      && db.evaluations[id].status == Failed
      && EvaluationEntity(id) in db.failures && db.failures[EvaluationEntity(id)] == d
  }

  ghost predicate ValidAlone(call: Call, db: Db)
    requires call.Terminal()
  {
    Validated(call, Constant(db, LockSlot(call)))
  }

  /** The parts of a terminal checklist the comparisons look at. */
  ghost predicate ChecklistParts(db: Db, id: string, c: Checklist)
    requires id in db.checklists
  {
    && c.status == db.checklists[id].status && c.content == QueryContent(db, id)
    && (c.status == Failed ==> ChecklistEntity(id) in db.failures && c.failure == Some(db.failures[ChecklistEntity(id)]))
  }

  /** The parts of a terminal evaluation they look at. */
  ghost predicate EvaluationParts(db: Db, id: string, e: Evaluation)
    requires id in db.evaluations
  {
    && e.checklistID == db.evaluations[id].checklistID && e.status == db.evaluations[id].status
    && (e.status == Failed ==> EvaluationEntity(id) in db.failures && e.failure == Some(db.failures[EvaluationEntity(id)]))
    && (e.status == Succeeded ==>
          && db.evaluations[id].checklistID in db.checklists && Scored(db, id)
          && e.runJudgments == QueryJudgments(db, id)
          && e.points == Some(PointsOf(StoredResult(db, id).score))
          && e.failedQuestionIDs == StoredResult(db, id).score.failedQuestionIDs)
  }

  lemma {:induction false} TerminalChecklistParts(db: Db, id: string) returns (c: Checklist)
    requires Inv(db) && TerminalChecklist(db, id)
    ensures ReadChecklist(Constant(db, CHECKLIST_READS), id) == GotChecklist(c) && ChecklistParts(db, id, c)
  {
    ExtendsReflexive(db);
    RecordKept(db, db, id);
    c := ReadChecklist(Constant(db, CHECKLIST_READS), id).checklist;
  }

  lemma {:induction false} TerminalEvaluationParts(db: Db, id: string) returns (e: Evaluation)
    requires Inv(db) && TerminalEvaluation(db, id)
    ensures ReadEvaluation(Constant(db, EVALUATION_READS), id) == GotEvaluation(e) && EvaluationParts(db, id, e)
  {
    TerminalEvaluationIsRead(db, id);
    e := ReadEvaluation(Constant(db, EVALUATION_READS), id).evaluation;
    if db.evaluations[id].status == Succeeded {
      Reload(db, id);
    }
  }

  lemma {:induction false} JudgedChecklist(call: Call, db: Db, c: Checklist)
    requires (call.SucceedChecklist? || call.FailChecklist?) && call.id in db.checklists && ChecklistParts(db, call.id, c)
    ensures Judge(call, GotChecklist(c)) == Agree(Matches(call, db))
  {
  }

  lemma {:induction false} JudgedFailedEvaluation(call: Call, db: Db, e: Evaluation)
    requires call.FailEvaluation? && RowExists(db, call) && EvaluationParts(db, call.id, e)
    ensures Judge(call, GotEvaluation(e)) == Agree(Matches(call, db))
  {
  }

  /** Two accepted lists over one checklist with the same votes score the same. */
  lemma {:induction false} ComparedScores(qs: seq<FinalQuestion>, stored: seq<RunJudgment>, read: seq<RunJudgment>,
                                          votes: seq<RunJudgment>, runs: int)
    requires Accepted(qs, stored, runs) && Accepted(qs, votes, runs) && Permutation(read, stored)
    ensures IndexedEqual(read, votes) <==> Permutation(stored, votes)
    ensures Permutation(stored, votes) ==> Aggregate(qs, stored, runs) == Aggregate(qs, votes, runs)
  {
    AcceptedPermutation(qs, stored, read, runs);
    IndexedEqualIsPermutation(qs, read, votes, runs);
    if Permutation(stored, votes) {
      AggregatePermutation(qs, stored, votes, runs);
    }
  }

  /** The votes decide: if they are the stored ones, the points and the failed ids agree by themselves. */
  lemma {:induction false} VotesDecide(call: Call, db: Db, e: Evaluation)
    requires call.SucceedEvaluation? && RowExists(db, call) && Ready(call, db) && EvaluationParts(db, call.id, e)
    requires e.status == Succeeded
    ensures IndexedEqual(e.runJudgments, call.votes) <==> Permutation(Rows(db.judgments, call.id), call.votes)
    ensures IndexedEqual(e.runJudgments, call.votes) ==> SameScore(e, call.score)
  {
    ComparedScores(QueryQuestions(db, call.checklistID), Rows(db.judgments, call.id), e.runJudgments,
                   call.votes, db.checklists[call.checklistID].evaluationRuns);
  }

  lemma {:induction false} JudgedSucceededEvaluation(call: Call, db: Db, e: Evaluation)
    requires call.SucceedEvaluation? && RowExists(db, call) && Ready(call, db) && EvaluationParts(db, call.id, e)
    ensures Judge(call, GotEvaluation(e)) == Agree(Matches(call, db))
  {
    if e.status == Succeeded {
      VotesDecide(call, db, e);
    }
    JudgedByVotes(call, e);
  }

  lemma JudgedByVotes(call: Call, e: Evaluation)
    requires call.SucceedEvaluation? && e.checklistID == call.checklistID
    requires e.status == Succeeded && IndexedEqual(e.runJudgments, call.votes) ==> SameScore(e, call.score)
    ensures Judge(call, GotEvaluation(e)) == Agree(e.status == Succeeded && IndexedEqual(e.runJudgments, call.votes))
  {
  }

  lemma {:induction false} Compared(call: Call, db: Db)
    requires Inv(db) && call.Terminal() && RowExists(db, call) && !IsRunning(db, call)
    requires call.SucceedEvaluation? ==> Ready(call, db)
    ensures Compare(call, Constant(db, CompareReads(call))) == Agree(Matches(call, db))
  {
    if call.Entity().ChecklistEntity? {
      var c := TerminalChecklistParts(db, call.id);
      JudgedChecklist(call, db, c);
    } else {
      var e := TerminalEvaluationParts(db, call.id);
      if call.FailEvaluation? {
        JudgedFailedEvaluation(call, db, e);
      } else {
        JudgedSucceededEvaluation(call, db, e);
      }
    }
  }

  /** A validated call about a terminal row is acknowledged exactly when it matches the row, gets ErrConflict otherwise,
      and changes nothing either way. */
  lemma {:induction false} RepeatedCall(call: Call, db: Db)
    requires Inv(db) && call.Terminal() && ValidAlone(call, db) && RowExists(db, call) && !IsRunning(db, call)
    ensures AtomicReply(call, db) == if Matches(call, db) then Acked else Conflict
    ensures AtomicResult(call, db) == db
  {
    WritesAlone(call, db);
    if call.SucceedEvaluation? {
      EvaluationSuccessAlone(call, db);
      ValidEvaluationIsReady(call, db);
    } else {
      TerminalAlone(call, db);
    }
    Compared(call, db);
  }

  lemma {:induction false} ValidEvaluationIsReady(call: Call, db: Db)
    requires Inv(db) && call.SucceedEvaluation? && ValidAlone(call, db) && RowExists(db, call)
    ensures Ready(call, db)
    ensures ReadChecklist(Constant(db, CHECKLIST_READS), call.checklistID).GotChecklist?
  {
    ChecklistOfEvaluation(db, call.id);
    ConstantSlices(db, CHECKLIST_READS, CHECKLIST_READS);
  }

  // ---------------------------------------------------------------- after a commit

  ghost predicate Commits(call: Call, db: Db) {
    AtomicWrites(call, db) && Effect(call, db).Some?
  }

  lemma {:induction false} CommittedChecklistRow(call: Call, db: Db)
    requires call.SucceedChecklist? && IsRunning(db, call) && Effect(call, db).Some?
    ensures var after := Effect(call, db).value;
            && RowExists(after, call) && !IsRunning(after, call)
            && (Matches(call, after) <==> InStoredOrder(call.content))
  {
    ReadBackIff(Effect(call, db).value, call.id, call.content);
  }

  lemma {:induction false} CommittedRow(call: Call, db: Db)
    requires call.Terminal() && IsRunning(db, call) && Effect(call, db).Some?
    ensures var after := Effect(call, db).value;
            && RowExists(after, call) && !IsRunning(after, call)
            && (Matches(call, after) <==> (call.SucceedChecklist? ==> InStoredOrder(call.content)))
  {
    if call.SucceedChecklist? {
      CommittedChecklistRow(call, db);
    }
  }

  lemma {:induction false} CommittedReply(call: Call, db: Db)
    requires Inv(db) && call.Terminal() && Commits(call, db)
    ensures AtomicReply(call, db) == Acked
  {
    WritesAlone(call, db);
    if call.SucceedEvaluation? {
      EvaluationSuccessAlone(call, db);
      ValidEvaluationIsReady(call, db);
    } else {
      TerminalAlone(call, db);
    }
  }

  lemma AfterConstant(a: Db, b: Db, n: nat)
    requires Extends(a, b)
    ensures After(a, Constant(b, n))
  {
  }

  lemma {:induction false} ChecklistReadKept(a: Db, b: Db, id: string)
    requires Inv(a) && Extends(a, b) && TerminalChecklist(a, id)
    ensures ReadChecklist(Constant(b, CHECKLIST_READS), id) == ReadChecklist(Constant(a, CHECKLIST_READS), id)
  {
    AfterConstant(a, b, CHECKLIST_READS);
    TerminalChecklistRead(a, Constant(b, CHECKLIST_READS), id);
  }

  lemma SameReadSameVerdict(call: Call, a: Db, b: Db)
    requires call.SucceedEvaluation? && ValidAlone(call, a)
    requires ReadChecklist(Constant(b, CHECKLIST_READS), call.checklistID) == ReadChecklist(Constant(a, CHECKLIST_READS), call.checklistID)
    ensures ValidAlone(call, b)
  {
    ConstantSlices(a, CHECKLIST_READS, CHECKLIST_READS);
    ConstantSlices(b, CHECKLIST_READS, CHECKLIST_READS);
  }

  /** A call stays valid: only the questions of a succeeded checklist are looked at. */
  lemma {:induction false} StaysValid(call: Call, a: Db, b: Db)
    requires Inv(a) && Extends(a, b) && call.Terminal() && ValidAlone(call, a) && RowExists(a, call)
    ensures ValidAlone(call, b)
  {
    if call.SucceedEvaluation? {
      ChecklistOfEvaluation(a, call.id);
      ChecklistReadKept(a, b, call.checklistID);
      SameReadSameVerdict(call, a, b);
    }
  }

  /** Repeating the call that won: acknowledged, except for a checklist that was not sent in stored order, which gets
      ErrConflict although nothing differs. No table changes. */
  lemma {:induction false} RetryAfterCommit(call: Call, db: Db)
    requires Inv(db) && call.Terminal() && Commits(call, db)
    ensures var after := AtomicResult(call, db);
            && AtomicReply(call, db) == Acked
            && AtomicReply(call, after) == (if call.SucceedChecklist? ==> InStoredOrder(call.content) then Acked else Conflict)
            && AtomicResult(call, after) == after
  {
    WritesAlone(call, db);
    CommittedReply(call, db);
    CommittedRow(call, db);
    ResultIsSafe(call, db);
    StaysValid(call, db, AtomicResult(call, db));
    RepeatedCall(call, AtomicResult(call, db));
  }

  predicate Succeeds(call: Call) {
    call.SucceedChecklist? || call.SucceedEvaluation?
  }

  lemma OppositeDoesNotMatch(call: Call, other: Call, db: Db)
    requires call.Terminal() && IsRunning(db, call) && Effect(call, db).Some?
    requires other.Terminal() && other.Entity() == call.Entity() && Succeeds(other) != Succeeds(call)
    requires RowExists(Effect(call, db).value, other)
    ensures !IsRunning(Effect(call, db).value, other) && !Matches(other, Effect(call, db).value)
  {
  }

  /** The opposite outcome never gets through once a call has won. */
  lemma {:induction false} OppositeOutcome(call: Call, other: Call, db: Db)
    requires Inv(db) && call.Terminal() && Commits(call, db)
    requires other.Terminal() && other.Entity() == call.Entity() && Succeeds(other) != Succeeds(call)
    requires RowExists(AtomicResult(call, db), other) && ValidAlone(other, AtomicResult(call, db))
    ensures var after := AtomicResult(call, db);
            AtomicReply(other, after) == Conflict && AtomicResult(other, after) == after
  {
    WritesAlone(call, db);
    OppositeDoesNotMatch(call, other, db);
    ResultIsSafe(call, db);
    RepeatedCall(other, AtomicResult(call, db));
  }
}
