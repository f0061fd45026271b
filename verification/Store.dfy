/** The store: one object holding the tables, with the operations as its methods.

    Each method runs on its own here; what it decides and leaves behind is that of the call of the same name with no other
    statement in between. The step relation puts other statements in between. */
module Store {
  import opened Common
  import opened Types
  import opened Validate
  import opened Score
  import opened Aggregation
  import opened Failures
  import opened Database
  import opened Calls
  import opened Effects
  import Keys

  /** A call on its own, without the statement slots. */
  ghost function Alone(call: Call, db: Db): Reply
    requires call.Terminal()
  {
    Outcome(call, Validated(call, Constant(db, LockSlot(call))), db, db, Compare(call, Constant(db, CompareReads(call))))
  }

  lemma {:induction false} ValidatedAlone(call: Call, db: Db, n: nat)
    requires call.Terminal() && n >= LockSlot(call)
    ensures Validated(call, Constant(db, n)) <==> Validated(call, Constant(db, LockSlot(call)))
  {
    if call.SucceedEvaluation? {
      ConstantSlices(db, n, CHECKLIST_READS);
      ConstantSlices(db, CHECKLIST_READS, CHECKLIST_READS);
    }
  }

  lemma SlotsOfTerminal(call: Call)
    requires call.Terminal()
    ensures Slots(call) == LockSlot(call) + 2 + CompareReads(call)
  {
  }

  lemma {:induction false} AloneSlices(call: Call, seen: seq<Db>, db: Db)
    requires call.Terminal() && seen == Constant(db, Slots(call))
    ensures LockSlot(call) + 1 < |seen| && seen[LockSlot(call)] == db && seen[LockSlot(call) + 1] == db
    ensures seen[LockSlot(call) + 2..] == Constant(db, CompareReads(call))
  {
    SlotsOfTerminal(call);
    ConstantSlices(db, Slots(call), LockSlot(call) + 2);
  }

  lemma {:induction false} TerminalAlone(call: Call, db: Db)
    requires call.Terminal()
    ensures ReplyToTerminal(call, Constant(db, Slots(call))) == Alone(call, db)
  {
    AloneSlices(call, Constant(db, Slots(call)), db);
    ValidatedAlone(call, db, Slots(call));
    OutcomeAlone(call, Constant(db, Slots(call)), db);
  }

  lemma OutcomeAlone(call: Call, seen: seq<Db>, db: Db)
    requires call.Terminal() && |seen| == Slots(call) && LockSlot(call) + 1 < |seen|
    requires seen[LockSlot(call)] == db && seen[LockSlot(call) + 1] == db
    requires seen[LockSlot(call) + 2..] == Constant(db, CompareReads(call))
    requires Validated(call, seen) <==> Validated(call, Constant(db, LockSlot(call)))
    ensures ReplyToTerminal(call, seen) == Alone(call, db)
  {
  }

  lemma {:induction false} WritesAlone(call: Call, db: Db)
    requires call.Terminal()
    ensures AtomicWrites(call, db) <==> Validated(call, Constant(db, LockSlot(call))) && IsRunning(db, call)
  {
    ValidatedAlone(call, db, LockSlot(call) + 1);
  }

  lemma {:induction false} EvaluationSuccessAlone(call: Call, db: Db)
    requires call.SucceedEvaluation?
    ensures AtomicReply(call, db) ==
            var read := ReadChecklist(Constant(db, CHECKLIST_READS), call.checklistID);
            if !read.GotChecklist? then read else Alone(call, db)
  {
    EvaluationSuccessSeen(call, Constant(db, Slots(call)), db);
  }

  lemma QueriesAlone(call: Call, db: Db)
    requires call.SucceedEvaluation?
    ensures CHECKLIST_READS <= Slots(call) && Constant(db, CHECKLIST_READS) == Constant(db, Slots(call))[..CHECKLIST_READS]
  {
    ConstantSlices(db, Slots(call), CHECKLIST_READS);
  }

  lemma {:induction false} EvaluationSuccessSeen(call: Call, seen: seq<Db>, db: Db)
    requires call.SucceedEvaluation? && seen == Constant(db, Slots(call))
    ensures ReplyTo(call, seen) ==
            var read := ReadChecklist(Constant(db, CHECKLIST_READS), call.checklistID);
            if !read.GotChecklist? then read else Alone(call, db)
  {
    TerminalAlone(call, db);
    QueriesAlone(call, db);
    EvaluationSuccessReply(call, seen, Constant(db, CHECKLIST_READS), Alone(call, db));
  }

  lemma EvaluationSuccessReply(call: Call, seen: seq<Db>, queries: seq<Db>, outcome: Reply)
    requires call.SucceedEvaluation? && |seen| == Slots(call) && queries == seen[..CHECKLIST_READS]
    requires ReplyToTerminal(call, seen) == outcome
    ensures ReplyTo(call, seen) ==
            var read := ReadChecklist(queries, call.checklistID);
            if !read.GotChecklist? then read else outcome
  {
  }

  lemma CreationAlone(call: Call, db: Db)
    requires call.CreateEvaluation?
    ensures AtomicReply(call, db) ==
            if call.checklistID !in db.checklists then NotFound
            else if db.checklists[call.checklistID].status != Succeeded then Conflict
            else ReplyOfWrite(call, db)
    ensures AtomicWrites(call, db) <==>
            call.checklistID in db.checklists && db.checklists[call.checklistID].status == Succeeded
  {
    assert Constant(db, 2)[0] == Constant(db, 2)[1] == db;
  }

  lemma RejectedHasNoEffect(call: Call, db: Db)
    requires call.Terminal() && !Validated(call, Constant(db, LockSlot(call)))
    ensures Alone(call, db) == Rejected && AtomicResult(call, db) == db
  {
    WritesAlone(call, db);
  }

  predicate ContentGiven(c: Content) {
    c.dimensions != [] && c.candidates != [] && c.weights != [] && c.questions != []
  }

  lemma RoomForContent(call: Call, db: Db)
    requires Inv(db) && call.SucceedChecklist? && ContentArgsOk(call.content, call.limits)
    ensures ContentGiven(call.content) && (IsRunning(db, call) ==> NoContent(db, call.id))
  {
    if IsRunning(db, call) {
      assert ChecklistInv(db, call.id);
    }
  }

  lemma AloneValidated(call: Call, db: Db)
    requires call.Terminal() && Validated(call, Constant(db, LockSlot(call)))
    ensures !RowExists(db, call) ==> Alone(call, db) == NotFound
    ensures IsRunning(db, call) ==> Alone(call, db) == ReplyOfWrite(call, db)
    ensures RowExists(db, call) && !IsRunning(db, call) ==> Alone(call, db) == Compare(call, Constant(db, CompareReads(call)))
  {
  }

  lemma ComparesVotes(call: Call, seen: seq<Db>, read: Reply)
    requires call.SucceedEvaluation? && |seen| == EVALUATION_READS && read == ReadEvaluation(seen, call.id)
    ensures Compare(call, seen) ==
            match read
            case GotEvaluation(e) =>
              Agree(e.checklistID == call.checklistID && e.status == Succeeded
                    && IndexedEqual(e.runJudgments, call.votes) && SameScore(e, call.score))
            case _ => read
  {
  }

  lemma EvaluationReadIsNotRejected(seen: seq<Db>, id: string)
    requires |seen| == EVALUATION_READS
    ensures ReadEvaluation(seen, id) != Rejected
  {
  }

  lemma JudgedIsNotRejected(call: Call, read: Reply)
    requires call.Terminal() && read != Rejected
    ensures Judge(call, read) != Rejected
  {
  }

  /** A comparison never ends in a rejection. */
  lemma {:induction false} ComparedIsNotRejected(call: Call, db: Db)
    requires call.Terminal()
    ensures Compare(call, Constant(db, CompareReads(call))) != Rejected
  {
    if call.Entity().EvaluationEntity? {
      EvaluationReadIsNotRejected(Constant(db, EVALUATION_READS), call.id);
      JudgedIsNotRejected(call, ReadEvaluation(Constant(db, EVALUATION_READS), call.id));
    }
  }

  /** A call that passed its validation is not rejected any more. */
  lemma {:induction false} NotRejected(call: Call, db: Db)
    requires call.Terminal() && Validated(call, Constant(db, LockSlot(call)))
    ensures Alone(call, db) != Rejected
  {
    AloneValidated(call, db);
    ComparedIsNotRejected(call, db);
  }

  /** e is the error of a call that is rejected on its own. */
  ghost predicate RejectedAlone(call: Call, db: Db, e: ErrorValue)
    requires call.Terminal()
  {
    RejectedWith(call, ReadBefore(call, Constant(db, LockSlot(call))), e)
  }

  lemma {:induction false} ScoreReadAlone(call: Call, db: Db)
    requires call.SucceedEvaluation?
    ensures ReadBefore(call, Constant(db, LockSlot(call))) == ReadChecklist(Constant(db, CHECKLIST_READS), call.checklistID)
    ensures Validated(call, Constant(db, CHECKLIST_READS)) <==>
            ScoreMatches(call, ReadChecklist(Constant(db, CHECKLIST_READS), call.checklistID))
  {
    ConstantSlices(db, CHECKLIST_READS, CHECKLIST_READS);
  }

  lemma RescoreOver(got: Evaluation, c: Checklist)
    ensures Rescore(got, GotChecklist(c)) ==
            if !Accepted(c.content.questions, got.runJudgments, c.evaluationRuns) then Broken
            else
              var aggregated := Aggregate(c.content.questions, got.runJudgments, c.evaluationRuns);
              GotEvaluation(got.(judgments := aggregated.judgments, failedQuestionIDs := aggregated.score.failedQuestionIDs))
  {
  }

  /** Aggregating the votes again and comparing the scores. */
  method CompareScore(qs: seq<FinalQuestion>, votes: seq<RunJudgment>, runs: int, score: ScoreResult)
    returns (refusal: Option<ErrorValue>)
    ensures refusal.None? <==> Accepted(qs, votes, runs) && score == Aggregate(qs, votes, runs).score
    ensures refusal.Some? && (runs <= 0 || runs % 2 == 0) ==> refusal.value == OtherError
    ensures refusal.Some? && runs > 0 && runs % 2 != 0 ==>
              && refusal.value.CoreSemanticError?
              && refusal.value.semantic.code == if Accepted(qs, votes, runs) then InvalidJudgments else VotesCode(qs, votes, runs)
  {
    var aggregated := AggregateJudgments(qs, votes, runs);
    match aggregated {
      case Failure(PlainError) => return Some(OtherError);
      case Failure(SemanticFailure(e)) => return Some(CoreSemanticError(e));
      case Success(a) =>
        return if a.score != score then Some(CoreSemanticError(Semantic(InvalidJudgments, ScoreMismatch))) else None;
    }
  }

  // ---------------------------------------------------------------- inserting rows

  /** One insert after the other; the first row a check, foreign key or unique constraint refuses ends the transaction. */
  method InsertRows<R>(table: map<string, seq<R>>, id: string, rows: seq<R>, rowOk: R -> bool, clash: (R, R) -> bool)
    returns (ok: bool, after: map<string, seq<R>>)
    requires Rows(table, id) == [] && rows != []
    ensures ok <==> (forall i | 0 <= i < |rows| :: rowOk(rows[i])) && (forall i, j | 0 <= i < j < |rows| :: !clash(rows[i], rows[j]))
    ensures ok ==> after == table[id := rows]
  {
    after := table;
    for i := 0 to |rows|
      invariant forall k | 0 <= k < i :: rowOk(rows[k])
      invariant forall j, k | 0 <= j < k < i :: !clash(rows[j], rows[k])
      invariant Rows(after, id) == rows[..i]
      invariant after == if i == 0 then table else table[id := rows[..i]]
    {
      var there := Rows(after, id);
      if !rowOk(rows[i]) {
        return false, table;
      }
      if exists k | 0 <= k < |there| :: clash(there[k], rows[i]) {
        ghost var k :| 0 <= k < i && clash(rows[k], rows[i]);
        return false, table;
      }
      after := after[id := there + [rows[i]]];
    }
    assert rows[..|rows|] == rows;
    ok := true;
  }

  /** The validations of `SucceedChecklist`, in their order. */
  method ValidateContent(c: Content, limits: ChecklistLimits) returns (err: Option<ErrorValue>)
    ensures err.None? <==> ContentArgsOk(c, limits)
    ensures err.Some? && !limits.Valid() ==> err.value == OtherError
    ensures err.Some? && limits.Valid() ==> err.value.CoreSemanticError? && err.value.semantic.code == ContentCode(c, limits)
  {
    if !limits.Valid() {
      return Some(OtherError);
    }
    var invalid := ValidateDimensions(c.dimensions, limits);
    if invalid.Some? {
      return Some(CoreSemanticError(invalid.value));
    }
    invalid := ValidateCandidateQuestions(c.dimensions, c.candidates, limits);
    if invalid.Some? {
      return Some(CoreSemanticError(invalid.value));
    }
    invalid := ValidateWeights(c.candidates, c.weights, limits);
    if invalid.Some? {
      return Some(CoreSemanticError(invalid.value));
    }
    invalid := ValidateFinalQuestions(c.dimensions, c.candidates, c.questions, limits);
    return if invalid.Some? then Some(CoreSemanticError(invalid.value)) else None;
  }

  /** A call that gets to commit on its own has established all that the commit needs. */
  lemma {:induction false} WritesAreReady(call: Call, db: Db)
    requires Inv(db) && AtomicWrites(call, db)
    ensures Ready(call, db)
  {
    match call {
      case CreateChecklist(_, _) =>
      case CreateEvaluation(_, _) =>
      case SucceedEvaluation(id, c, _, _) =>
        WritesAlone(call, db);
        ConstantSlices(db, CHECKLIST_READS, CHECKLIST_READS);
        assert EvaluationInv(db, id);
      case _ => WritesAlone(call, db);
    }
  }

  lemma {:induction false} ResultIsSafe(call: Call, db: Db)
    requires Inv(db)
    ensures Inv(AtomicResult(call, db)) && Extends(db, AtomicResult(call, db))
  {
    if AtomicWrites(call, db) && Effect(call, db).Some? {
      WritesAreReady(call, db);
      CommitIsSafe(call, db);
    } else {
      ExtendsReflexive(db);
    }
  }

  lemma {:induction false} RoomForVotes(call: Call, db: Db)
    requires Inv(db) && call.SucceedEvaluation?
    ensures AtomicWrites(call, db) ==> Rows(db.judgments, call.id) == [] && call.votes != []
  {
    if !AtomicWrites(call, db) {
      return;
    }
    WritesAreReady(call, db);
    WritesAlone(call, db);
    assert EvaluationInv(db, call.id);
    AcceptedHasVotes(QueryQuestions(db, call.checklistID), call.votes, db.checklists[call.checklistID].evaluationRuns);
  }

  class Store {
    var db: Db

    ghost predicate Valid()
      reads this
    {
      Inv(db)
    }

    constructor ()
      ensures Valid()
    {
      db := EMPTY_DB;
      new;
      EmptyDbInv();
    }

    // ---------------------------------------------------------------- reads

    method GetChecklist(id: string) returns (reply: Reply)
      ensures reply == ReadChecklist(Constant(db, CHECKLIST_READS), id)
    {
      if id !in db.checklists {
        return NotFound;
      }
      var row := db.checklists[id];
      var failure := None;
      if row.status == Failed {
        if ChecklistEntity(id) !in db.failures {
          return NotFound;
        }
        failure := Some(db.failures[ChecklistEntity(id)]);
      }
      var dimensions := QueryDimensions(db, id);
      var candidates := QueryCandidates(db, id);
      var weights := QueryWeights(db, id);
      var questions := QueryQuestions(db, id);
      return GotChecklist(Checklist(
        id, row.status, row.evaluationRuns, row.taskArtifactKey, row.contextArtifactKey, failure,
        Content(dimensions, candidates, weights, questions)));
    }

    method GetEvaluation(id: string) returns (reply: Reply)
      ensures reply == ReadEvaluation(Constant(db, EVALUATION_READS), id)
    {
      if id !in db.evaluations {
        return NotFound;
      }
      var row := db.evaluations[id];
      var failure := None;
      if row.status == Failed {
        if EvaluationEntity(id) !in db.failures {
          return NotFound;
        }
        failure := Some(db.failures[EvaluationEntity(id)]);
      }
      var votes := QueryJudgments(db, id);
      var got := Evaluation(id, row.checklistID, row.status, row.answerArtifactKey, row.points, failure, votes, [], []);
      if row.status == Succeeded {
        ConstantSlices(db, EVALUATION_READS, 3);
        reply := ScoreAgain(got);
        return;
      }
      return GotEvaluation(got);
    }

    /** The aggregation `GetEvaluation` ends with. */
    method ScoreAgain(got: Evaluation) returns (reply: Reply)
      ensures reply == Rescore(got, ReadChecklist(Constant(db, CHECKLIST_READS), got.checklistID))
    {
      var read := GetChecklist(got.checklistID);
      match read {
        case GotChecklist(c) =>
          RescoreOver(got, c);
          var aggregated := AggregateJudgments(c.content.questions, got.runJudgments, c.evaluationRuns);
          match aggregated {
            case Failure(_) => return Broken;
            case Success(a) => return GotEvaluation(got.(judgments := a.judgments, failedQuestionIDs := a.score.failedQuestionIDs));
          }
        case _ => return read;
      }
    }

    // ---------------------------------------------------------------- creation

    method CreateChecklistForWorkflow(id: string, evaluationRuns: int) returns (reply: Reply)
      requires Valid()
      modifies this
      ensures Valid() && Extends(old(db), db)
      ensures db == AtomicResult(CreateChecklist(id, evaluationRuns), old(db))
      ensures reply == AtomicReply(CreateChecklist(id, evaluationRuns), old(db))
    {
      ghost var call := CreateChecklist(id, evaluationRuns);
      ResultIsSafe(call, db);
      if !ValidEvaluationRuns(evaluationRuns, evaluationRuns) {
        return Rejected;
      }
      if id in db.checklists {
        return SqlFailure;
      }
      db := db.(checklists := db.checklists[id :=
        ChecklistRow(Running, evaluationRuns, Keys.ChecklistTaskKey(id), Keys.ChecklistContextKey(id))]);
      return Acked;
    }

    method CreateEvaluationForWorkflow(id: string, checklistID: string) returns (reply: Reply)
      requires Valid()
      modifies this
      ensures Valid() && Extends(old(db), db)
      ensures db == AtomicResult(CreateEvaluation(id, checklistID), old(db))
      ensures reply == AtomicReply(CreateEvaluation(id, checklistID), old(db))
    {
      ghost var call := CreateEvaluation(id, checklistID);
      ResultIsSafe(call, db);
      CreationAlone(call, db);
      if checklistID !in db.checklists {
        return NotFound;
      }
      if db.checklists[checklistID].status != Succeeded {
        return Conflict;
      }
      if id in db.evaluations {
        return SqlFailure;
      }
      db := db.(evaluations := db.evaluations[id :=
        EvaluationRow(checklistID, Running, Keys.EvaluationAnswerKey(id), None)]);
      return Acked;
    }

    // ---------------------------------------------------------------- terminal operations

    /** The four insert loops and the status update of a transaction that ends a checklist. */
    method InsertContent(tx: Db, id: string, c: Content) returns (ok: bool, after: Db)
      requires NoContent(tx, id) && id in tx.checklists
      requires ContentGiven(c)
      ensures ok <==> ContentRowsOk(c.dimensions, c.candidates, c.weights, c.questions)
      ensures ok ==> after == SetChecklistStatus(StoreContent(tx, id, c), id, Succeeded)
    {
      after := tx;
      var dimensionIds, candidateIds := DimensionIds(c.dimensions), CandidateIds(c.candidates);
      var dimensions, candidates, weights, questions;
      ok, dimensions := InsertRows(tx.dimensions, id, c.dimensions, DimensionRowOk,
        (a: Dimension, b: Dimension) => a.id == b.id || a.ordinal == b.ordinal);
      if !ok {
        return;
      }
      ok, candidates := InsertRows(tx.candidates, id, c.candidates, (x: CandidateQuestion) => CandidateRowOk(x, dimensionIds),
        (a: CandidateQuestion, b: CandidateQuestion) => a.id == b.id || a.ordinal == b.ordinal);
      if !ok {
        return;
      }
      ok, weights := InsertRows(tx.weights, id, c.weights, (x: Weight) => WeightRowOk(x, candidateIds),
        (a: Weight, b: Weight) => a.candidateQuestionID == b.candidateQuestionID);
      if !ok {
        return;
      }
      ok, questions := InsertRows(tx.questions, id, c.questions, (x: FinalQuestion) => QuestionRowOk(x, dimensionIds, candidateIds),
        (a: FinalQuestion, b: FinalQuestion) => a.id == b.id || a.ordinal == b.ordinal);
      if !ok {
        return;
      }
      after := tx.(dimensions := dimensions, candidates := candidates, weights := weights, questions := questions);
      after := after.(checklists := after.checklists[id := after.checklists[id].(status := Succeeded)]);
    }

    method SucceedChecklist(id: string, content: Content, limits: ChecklistLimits)
      returns (reply: Reply, refusal: Option<ErrorValue>)
      requires Valid()
      modifies this
      ensures Valid() && Extends(old(db), db)
      ensures db == AtomicResult(Call.SucceedChecklist(id, content, limits), old(db))
      ensures reply == AtomicReply(Call.SucceedChecklist(id, content, limits), old(db))
      ensures refusal.Some? <==> reply == Rejected
      ensures refusal.Some? ==> RejectedAlone(Call.SucceedChecklist(id, content, limits), old(db), refusal.value)
    {
      var call := Call.SucceedChecklist(id, content, limits);
      ResultIsSafe(call, db);
      TerminalAlone(call, db);
      refusal := ValidateContent(content, limits);
      if refusal.Some? {
        RejectedHasNoEffect(call, db);
        return Rejected, refusal;
      }
      NotRejected(call, db);
      RoomForContent(call, db);
      reply := WriteOrCompareContent(call);
    }

    /** The transaction of `SucceedChecklist`, once the content is valid. */
    method WriteOrCompareContent(call: Call) returns (reply: Reply)
      requires call.SucceedChecklist? && Validated(call, Constant(db, 0))
      requires IsRunning(db, call) ==> NoContent(db, call.id) && ContentGiven(call.content)
      modifies this
      ensures db == AtomicResult(call, old(db))
      ensures reply == Alone(call, old(db))
    {
      WritesAlone(call, db);
      AloneValidated(call, db);
      if call.id !in db.checklists {
        return NotFound;
      }
      if db.checklists[call.id].status != Running {
        reply := CompareSucceededChecklist(call);
        return;
      }
      var ok, after := InsertContent(db, call.id, call.content);
      if !ok {
        return SqlFailure;
      }
      db := after;
      return Acked;
    }

    method CompareSucceededChecklist(call: Call) returns (reply: Reply)
      requires call.SucceedChecklist?
      ensures reply == Compare(call, Constant(db, CHECKLIST_READS))
    {
      var read := GetChecklist(call.id);
      return if !read.GotChecklist? then read
             else Agree(read.checklist.status == Succeeded && read.checklist.content == call.content);
    }

    method FailChecklist(id: string, details: Details) returns (reply: Reply, refusal: Option<ErrorValue>)
      requires Valid()
      modifies this
      ensures Valid() && Extends(old(db), db)
      ensures db == AtomicResult(Call.FailChecklist(id, details), old(db))
      ensures reply == AtomicReply(Call.FailChecklist(id, details), old(db))
      ensures refusal.Some? <==> reply == Rejected
      ensures refusal.Some? ==> RejectedAlone(Call.FailChecklist(id, details), old(db), refusal.value)
    {
      ghost var call := Call.FailChecklist(id, details);
      ResultIsSafe(call, db);
      TerminalAlone(call, db);
      WritesAlone(call, db);
      var ok := ValidateDetails(details);
      if !ok {
        return Rejected, Some(OtherError);
      }
      if id !in db.checklists {
        return NotFound, None;
      }
      if db.checklists[id].status != Running {
        var read := GetChecklist(id);
        reply := if !read.GotChecklist? then read
                 else Agree(read.checklist.status == Failed && read.checklist.failure.Some?
                            && read.checklist.failure.value.Equal(details));
        return reply, None;
      }
      if ChecklistEntity(id) in db.failures || !FailureRowOk(details) {
        return SqlFailure, None;
      }
      var tx := db.(failures := db.failures[ChecklistEntity(id) := details]);
      tx := tx.(checklists := tx.checklists[id := tx.checklists[id].(status := Failed)]);
      db := tx;
      return Acked, None;
    }

    /** The recomputation `SucceedEvaluation` starts with: the reply it ends in, if any, and the error if it is a rejection. */
    method RecomputeScore(call: Call) returns (stop: Option<Reply>, refusal: Option<ErrorValue>)
      requires call.SucceedEvaluation?
      ensures var read := ReadChecklist(Constant(db, CHECKLIST_READS), call.checklistID);
              stop == if !read.GotChecklist? then Some(read)
                      else if Validated(call, Constant(db, CHECKLIST_READS)) then None else Some(Rejected)
      ensures refusal.Some? <==> stop == Some(Rejected)
      ensures refusal.Some? ==> RejectedAlone(call, db, refusal.value)
    {
      ScoreReadAlone(call, db);
      var read := GetChecklist(call.checklistID);
      if !read.GotChecklist? {
        return Some(read), None;
      }
      refusal := CompareScore(read.checklist.content.questions, call.votes, read.checklist.evaluationRuns, call.score);
      stop := if refusal.Some? then Some(Rejected) else None;
    }

    /** The insert loop and the status update of a transaction that scores an evaluation. */
    method InsertVotes(tx: Db, id: string, checklistID: string, votes: seq<RunJudgment>, score: ScoreResult)
      returns (ok: bool, after: Db)
      requires id in tx.evaluations && Rows(tx.judgments, id) == [] && votes != []
      ensures ok <==> JudgmentRowsOk(votes, QuestionIds(Rows(tx.questions, checklistID))) && PointsRowOk(score)
      ensures ok ==> after == SetEvaluationStatus(tx.(judgments := tx.judgments[id := votes]), id, Succeeded, Some(PointsOf(score)))
    {
      after := tx;
      var questionIds := QuestionIds(Rows(tx.questions, checklistID));
      var judgments;
      ok, judgments := InsertRows(tx.judgments, id, votes, (v: RunJudgment) => JudgmentRowOk(v, questionIds),
        (a: RunJudgment, b: RunJudgment) => VoteKey(a) == VoteKey(b));
      if !ok || !PointsRowOk(score) {
        ok := false;
        return;
      }
      after := tx.(judgments := judgments);
      after := after.(evaluations :=
        after.evaluations[id := after.evaluations[id].(status := Succeeded, points := Some(PointsOf(score)))]);
    }

    method SucceedEvaluation(id: string, checklistID: string, votes: seq<RunJudgment>, score: ScoreResult)
      returns (reply: Reply, refusal: Option<ErrorValue>)
      requires Valid()
      modifies this
      ensures Valid() && Extends(old(db), db)
      ensures db == AtomicResult(Call.SucceedEvaluation(id, checklistID, votes, score), old(db))
      ensures reply == AtomicReply(Call.SucceedEvaluation(id, checklistID, votes, score), old(db))
      ensures refusal.Some? <==> reply == Rejected
      ensures refusal.Some? ==> RejectedAlone(Call.SucceedEvaluation(id, checklistID, votes, score), old(db), refusal.value)
    {
      var call := Call.SucceedEvaluation(id, checklistID, votes, score);
      ResultIsSafe(call, db);
      EvaluationSuccessAlone(call, db);
      WritesAlone(call, db);
      var stop;
      stop, refusal := RecomputeScore(call);
      match stop {
        case Some(r) => reply := r;
        case None =>
          RoomForVotes(call, db);
          NotRejected(call, db);
          reply := WriteOrCompare(call);
      }
    }

    /** The transaction of `SucceedEvaluation`, once the score is known to match. */
    method WriteOrCompare(call: Call) returns (reply: Reply)
      requires call.SucceedEvaluation? && Validated(call, Constant(db, CHECKLIST_READS))
      requires IsRunning(db, call) ==> Rows(db.judgments, call.id) == [] && call.votes != []
      modifies this
      ensures db == AtomicResult(call, old(db))
      ensures reply == Alone(call, old(db))
    {
      WritesAlone(call, db);
      AloneValidated(call, db);
      var id := call.id;
      if !(id in db.evaluations && db.evaluations[id].checklistID == call.checklistID) {
        return NotFound;
      }
      if db.evaluations[id].status != Running {
        reply := CompareSucceededEvaluation(call);
        return;
      }
      var ok, after := InsertVotes(db, id, call.checklistID, call.votes, call.score);
      if !ok {
        return SqlFailure;
      }
      db := after;
      return Acked;
    }

    method CompareSucceededEvaluation(call: Call) returns (reply: Reply)
      requires call.SucceedEvaluation?
      ensures reply == Compare(call, Constant(db, EVALUATION_READS))
    {
      var read := GetEvaluation(call.id);
      ComparesVotes(call, Constant(db, EVALUATION_READS), read);
      match read {
        case GotEvaluation(e) =>
          var sameVotes := RunJudgmentsEqual(e.runJudgments, call.votes);
          return Agree(e.checklistID == call.checklistID && e.status == Succeeded && sameVotes
                       && SameScore(e, call.score));
        case _ => return read;
      }
    }

    method FailEvaluation(id: string, checklistID: string, details: Details)
      returns (reply: Reply, refusal: Option<ErrorValue>)
      requires Valid()
      modifies this
      ensures Valid() && Extends(old(db), db)
      ensures db == AtomicResult(Call.FailEvaluation(id, checklistID, details), old(db))
      ensures reply == AtomicReply(Call.FailEvaluation(id, checklistID, details), old(db))
      ensures refusal.Some? <==> reply == Rejected
      ensures refusal.Some? ==> RejectedAlone(Call.FailEvaluation(id, checklistID, details), old(db), refusal.value)
    {
      ghost var call := Call.FailEvaluation(id, checklistID, details);
      ResultIsSafe(call, db);
      TerminalAlone(call, db);
      WritesAlone(call, db);
      var ok := ValidateDetails(details);
      if !ok {
        return Rejected, Some(OtherError);
      }
      if !(id in db.evaluations && db.evaluations[id].checklistID == checklistID) {
        return NotFound, None;
      }
      if db.evaluations[id].status != Running {
        ComparedIsNotRejected(call, db);
        reply := CompareFailedEvaluation(id, checklistID, details);
        return reply, None;
      }
      if EvaluationEntity(id) in db.failures || !FailureRowOk(details) {
        return SqlFailure, None;
      }
      var tx := db.(failures := db.failures[EvaluationEntity(id) := details]);
      assert EvaluationInv(db, id);
      tx := tx.(evaluations := tx.evaluations[id := tx.evaluations[id].(status := Failed)]);
      db := tx;
      return Acked, None;
    }

    method CompareFailedEvaluation(id: string, checklistID: string, details: Details) returns (reply: Reply)
      ensures reply == Compare(Call.FailEvaluation(id, checklistID, details), Constant(db, EVALUATION_READS))
    {
      var read := GetEvaluation(id);
      match read {
        case GotEvaluation(e) =>
          return Agree(e.checklistID == checklistID && e.status == Failed
                       && e.failure.Some? && e.failure.value.Equal(details));
        case _ => return read;
      }
    }
  }
}
