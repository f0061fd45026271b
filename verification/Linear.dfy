/** Every call, however its statements interleave with other commits, answers and acts as if it had run on its own at one
    of its statements. */
module Linear {
  import opened Common
  import opened Seqs
  import opened Aggregation
  import opened Database
  import opened Calls
  import opened Effects
  import opened Reads
  import opened Store
  import opened Repeats

  /** The row lock holds off every other writer between the lock and the commit. */
  ghost predicate LockHeld(call: Call, seen: seq<Db>)
    requires |seen| == Slots(call)
  {
    call.Terminal() && WantsWrite(call, seen[..LockSlot(call) + 1]) ==> IsRunning(seen[LockSlot(call) + 1], call)
  }

  /** Whether the call got to commit. */
  ghost predicate Writes(call: Call, seen: seq<Db>)
    requires |seen| == Slots(call)
  {
    match call
    case CreateChecklist(_, _) => WantsWrite(call, [])
    case CreateEvaluation(_, _) => WantsWrite(call, seen[..1])
    case GetChecklist(_) => false
    case GetEvaluation(_) => false
    case _ => WantsWrite(call, seen[..LockSlot(call) + 1])
  }

  /** The statement at which the call takes effect. */
  ghost function Point(call: Call, seen: seq<Db>): (k: nat)
    requires |seen| == Slots(call)
    ensures k < |seen|
  {
    match call
    case CreateEvaluation(_, _) => if Writes(call, seen) then 1 else 0
    case SucceedEvaluation(_, c, _, _) =>
      if c !in seen[0].checklists then 0
      else if !Validated(call, seen) then CHECKLIST_READS - 1
      else if Writes(call, seen) then CHECKLIST_READS + 1
      else CHECKLIST_READS
    case CreateChecklist(_, _) => 0
    case GetChecklist(_) => 0
    case GetEvaluation(_) => 0
    case _ => if Writes(call, seen) then 1 else 0
  }

  // ---------------------------------------------------------------- validation over a mixed read

  lemma {:induction false} RowAtLastQuery(seen: seq<Db>, id: string)
    requires Chain(seen) && |seen| == CHECKLIST_READS && id in seen[0].checklists
    ensures id in seen[5].checklists && seen[5].checklists[id].evaluationRuns == seen[0].checklists[id].evaluationRuns
  {
    assert Extends(seen[0], seen[5]);
    assert ChecklistKept(seen[0], seen[5], id);
  }

  lemma {:induction false} WholeRead(db: Db, id: string)
    requires Inv(db) && id in db.checklists
    ensures ReadChecklist(Constant(db, CHECKLIST_READS), id).GotChecklist?
  {
    ConstantChain(db, CHECKLIST_READS);
    GetChecklistIsAtomic(Constant(db, CHECKLIST_READS), id);
  }

  /** The questions and the number of runs a mixed read returns are those at its last query. */
  lemma {:induction false} MixedRead(seen: seq<Db>, id: string)
    requires Chain(seen) && |seen| == CHECKLIST_READS && id in seen[0].checklists
    ensures var mixed, whole := ReadChecklist(seen, id), ReadChecklist(Constant(seen[5], CHECKLIST_READS), id);
            && mixed.GotChecklist? && whole.GotChecklist?
            && mixed.checklist.content.questions == whole.checklist.content.questions
            && mixed.checklist.evaluationRuns == whole.checklist.evaluationRuns
  {
    GetChecklistIsAtomic(seen, id);
    RowAtLastQuery(seen, id);
    WholeRead(seen[5], id);
  }

  lemma ConstantChain(db: Db, n: nat)
    requires Inv(db)
    ensures Chain(Constant(db, n))
  {
    ExtendsReflexive(db);
  }

  lemma SameQuestionsSameVerdict(call: Call, a: Reply, b: Reply)
    requires call.SucceedEvaluation? && a.GotChecklist? && b.GotChecklist?
    requires a.checklist.content.questions == b.checklist.content.questions
    requires a.checklist.evaluationRuns == b.checklist.evaluationRuns
    ensures ScoreMatches(call, a) <==> ScoreMatches(call, b)
  {
  }

  lemma ValidAloneIsMatch(call: Call, db: Db)
    requires call.SucceedEvaluation?
    ensures ValidAlone(call, db) <==> ScoreMatches(call, ReadChecklist(Constant(db, CHECKLIST_READS), call.checklistID))
  {
    ConstantSlices(db, CHECKLIST_READS, CHECKLIST_READS);
  }

  /** A score is accepted over a mixed read exactly when it is over the state of the last query. */
  lemma {:induction false} MatchedAtLastQuery(call: Call, seen: seq<Db>)
    requires call.SucceedEvaluation? && Chain(seen) && |seen| == CHECKLIST_READS && call.checklistID in seen[0].checklists
    ensures ScoreMatches(call, ReadChecklist(seen, call.checklistID)) <==> ValidAlone(call, seen[5])
  {
    MixedRead(seen, call.checklistID);
    ValidAloneIsMatch(call, seen[5]);
    SameQuestionsSameVerdict(call, ReadChecklist(seen, call.checklistID),
                             ReadChecklist(Constant(seen[5], CHECKLIST_READS), call.checklistID));
  }

  /** An accepted score was accepted at the last query. */
  lemma {:induction false} ScoredQueries(call: Call, queries: seq<Db>)
    requires call.SucceedEvaluation? && Chain(queries) && |queries| == CHECKLIST_READS
    requires ScoreMatches(call, ReadChecklist(queries, call.checklistID))
    ensures call.checklistID in queries[0].checklists && ValidAlone(call, queries[5])
  {
    GetChecklistIsAtomic(queries, call.checklistID);
    MatchedAtLastQuery(call, queries);
  }

  lemma QuestionsMeanSucceeded(db: Db, call: Call)
    requires Inv(db) && call.SucceedEvaluation? && ValidAlone(call, db)
    ensures TerminalChecklist(db, call.checklistID)
  {
    ValidAloneIsMatch(call, db);
    assert ChecklistInv(db, call.checklistID);
  }

  /** And it is accepted in every later state. */
  lemma {:induction false} MatchedLater(call: Call, db: Db, later: Db)
    requires call.SucceedEvaluation? && Inv(db) && Extends(db, later) && ValidAlone(call, db)
    ensures ValidAlone(call, later)
  {
    QuestionsMeanSucceeded(db, call);
    ChecklistReadKept(db, later, call.checklistID);
    SameReadSameVerdict(call, db, later);
  }

  // ---------------------------------------------------------------- after validation

  lemma AfterInChain(seen: seq<Db>, i: nat, k: nat)
    requires Chain(seen) && i <= k <= |seen| && i < |seen|
    ensures Inv(seen[i]) && After(seen[i], seen[k..])
  {
    forall j | 0 <= j < |seen| - k ensures Extends(seen[i], seen[k..][j]) {
      assert seen[k..][j] == seen[k + j];
    }
  }

  /** A validated terminal call from its lock on: a is what the lock saw, b what the commit would see. */
  lemma {:induction false} AfterLock(call: Call, a: Db, b: Db, rest: seq<Db>)
    requires call.Terminal() && |rest| == CompareReads(call) && Inv(a) && After(a, rest)
    requires ValidAlone(call, a) && ValidAlone(call, b)
    requires IsRunning(a, call) ==> IsRunning(b, call)
    ensures Outcome(call, true, a, b, Compare(call, rest)) == Alone(call, if IsRunning(a, call) then b else a)
  {
    if RowExists(a, call) && !IsRunning(a, call) {
      if call.Entity().ChecklistEntity? {
        TerminalChecklistRead(a, rest, call.id);
      } else {
        TerminalEvaluationRead(a, rest, call.id);
      }
    }
  }

  // ---------------------------------------------------------------- every call

  lemma {:induction false} LinearCreateEvaluation(call: Call, seen: seq<Db>)
    requires call.CreateEvaluation? && Chain(seen) && |seen| == 2
    ensures ReplyTo(call, seen) == AtomicReply(call, seen[Point(call, seen)])
    ensures Writes(call, seen) <==> AtomicWrites(call, seen[Point(call, seen)])
  {
    if Writes(call, seen) {
      assert Extends(seen[0], seen[1]);
      QueriesKept(seen[0], seen[1], call.checklistID);
    }
  }

  predicate LocksFirst(call: Call) {
    call.SucceedChecklist? || call.FailChecklist? || call.FailEvaluation?
  }

  /** What the reply of a validated call is made of. */
  lemma {:induction false} LockFirstOutcome(call: Call, seen: seq<Db>)
    requires LocksFirst(call) && |seen| == Slots(call) && Validated(call, [])
    ensures ReplyTo(call, seen) == Outcome(call, true, seen[0], seen[1], Compare(call, seen[2..]))
  {
    assert Validated(call, seen);
  }

  /** And where it takes effect. */
  lemma {:induction false} LockFirstStatements(call: Call, seen: seq<Db>)
    requires LocksFirst(call) && |seen| == Slots(call) && Validated(call, [])
    ensures Writes(call, seen) <==> IsRunning(seen[0], call)
    ensures LockHeld(call, seen) <==> (IsRunning(seen[0], call) ==> IsRunning(seen[1], call))
    ensures Point(call, seen) == if IsRunning(seen[0], call) then 1 else 0
  {
    assert Validated(call, seen[..1]);
    assert seen[..1][0] == seen[0];
  }

  lemma {:induction false} AloneIfLocksFirst(call: Call, db: Db)
    requires LocksFirst(call)
    ensures AtomicReply(call, db) == Alone(call, db)
    ensures AtomicWrites(call, db) <==> ValidAlone(call, db) && IsRunning(db, call)
  {
    TerminalAlone(call, db);
    WritesAlone(call, db);
  }

  lemma {:induction false} LinearRejected(call: Call, seen: seq<Db>)
    requires LocksFirst(call) && |seen| == Slots(call) && !Validated(call, [])
    ensures ReplyTo(call, seen) == Alone(call, seen[0]) == Rejected && Point(call, seen) == 0
    ensures !Writes(call, seen) && !ValidAlone(call, seen[0])
  {
    assert !Validated(call, seen) && !Validated(call, seen[..1]);
  }

  lemma LockFirstIsValid(call: Call, db: Db)
    requires LocksFirst(call)
    ensures ValidAlone(call, db) <==> Validated(call, [])
  {
  }

  lemma {:induction false} LockFirstReply(call: Call, seen: seq<Db>)
    requires LocksFirst(call) && 1 < |seen| == Slots(call) && Validated(call, []) && Chain(seen)
    requires IsRunning(seen[0], call) ==> IsRunning(seen[1], call)
    ensures ReplyTo(call, seen) == Alone(call, if IsRunning(seen[0], call) then seen[1] else seen[0])
  {
    SlotsOfTerminal(call);
    LockFirstOutcome(call, seen);
    LockFirstAfter(call, seen);
  }

  lemma {:induction false} LockFirstAfter(call: Call, seen: seq<Db>)
    requires LocksFirst(call) && |seen| == 2 + CompareReads(call) && Validated(call, []) && Chain(seen)
    requires IsRunning(seen[0], call) ==> IsRunning(seen[1], call)
    ensures Outcome(call, true, seen[0], seen[1], Compare(call, seen[2..])) ==
            Alone(call, if IsRunning(seen[0], call) then seen[1] else seen[0])
  {
    AfterInChain(seen, 0, 2);
    LockFirstAlone(call, seen[0], seen[1], seen[2..]);
  }

  lemma {:induction false} LockFirstAlone(call: Call, a: Db, b: Db, rest: seq<Db>)
    requires LocksFirst(call) && Validated(call, []) && |rest| == CompareReads(call) && Inv(a) && After(a, rest)
    requires IsRunning(a, call) ==> IsRunning(b, call)
    ensures Outcome(call, true, a, b, Compare(call, rest)) == Alone(call, if IsRunning(a, call) then b else a)
  {
    LockFirstIsValid(call, a);
    LockFirstIsValid(call, b);
    AfterLock(call, a, b, rest);
  }

  lemma {:induction false} LockFirstWrites(call: Call, seen: seq<Db>)
    requires LocksFirst(call) && |seen| == Slots(call) && Validated(call, []) && LockHeld(call, seen)
    ensures Writes(call, seen) <==> IsRunning(seen[Point(call, seen)], call)
  {
    LockFirstStatements(call, seen);
  }

  /** The calls that lock first and whose validation reads nothing. */
  lemma {:induction false} LinearLockFirst(call: Call, seen: seq<Db>)
    requires LocksFirst(call) && |seen| == Slots(call) && Chain(seen) && LockHeld(call, seen)
    ensures ReplyTo(call, seen) == AtomicReply(call, seen[Point(call, seen)])
    ensures Writes(call, seen) <==> AtomicWrites(call, seen[Point(call, seen)])
  {
    AloneIfLocksFirst(call, seen[Point(call, seen)]);
    if Validated(call, []) {
      LinearAccepted(call, seen);
      LinearAcceptedWrites(call, seen);
    } else {
      LinearRejected(call, seen);
    }
  }

  lemma {:induction false} LinearAccepted(call: Call, seen: seq<Db>)
    requires LocksFirst(call) && |seen| == Slots(call) && Chain(seen) && LockHeld(call, seen) && Validated(call, [])
    ensures ReplyTo(call, seen) == Alone(call, seen[Point(call, seen)])
  {
    SlotsOfTerminal(call);
    LockFirstStatements(call, seen);
    LockFirstReply(call, seen);
  }

  lemma {:induction false} LinearAcceptedWrites(call: Call, seen: seq<Db>)
    requires LocksFirst(call) && |seen| == Slots(call) && LockHeld(call, seen) && Validated(call, [])
    ensures Writes(call, seen) <==> ValidAlone(call, seen[Point(call, seen)]) && IsRunning(seen[Point(call, seen)], call)
  {
    LockFirstWrites(call, seen);
    LockFirstIsValid(call, seen[Point(call, seen)]);
  }

  lemma {:induction false} ScoredReply(call: Call, seen: seq<Db>)
    requires call.SucceedEvaluation? && |seen| == Slots(call) && Validated(call, seen)
    ensures var lock := LockSlot(call);
            ReplyTo(call, seen) == Outcome(call, true, seen[lock], seen[lock + 1], Compare(call, seen[lock + 2..]))
  {
  }

  lemma {:induction false} ScoredWrites(call: Call, seen: seq<Db>)
    requires call.SucceedEvaluation? && |seen| == Slots(call) && Validated(call, seen)
    ensures Writes(call, seen) <==> IsRunning(seen[LockSlot(call)], call)
  {
    ValidatedByLock(call, seen);
  }

  /** The score is compared before the row is locked. */
  lemma ValidatedByLock(call: Call, seen: seq<Db>)
    requires call.SucceedEvaluation? && |seen| == Slots(call)
    ensures Validated(call, seen[..LockSlot(call) + 1]) <==> Validated(call, seen)
    ensures seen[..LockSlot(call) + 1][LockSlot(call)] == seen[LockSlot(call)]
  {
    assert seen[..LockSlot(call) + 1][..CHECKLIST_READS] == seen[..CHECKLIST_READS];
  }

  /** What an accepted score says about the states the rest of the call sees. */
  lemma {:induction false} ScoredStates(call: Call, seen: seq<Db>)
    requires call.SucceedEvaluation? && |seen| == Slots(call) && Chain(seen) && Validated(call, seen)
    ensures call.checklistID in seen[0].checklists && ValidAlone(call, seen[5])
  {
    ChainSlice(seen, 0, CHECKLIST_READS);
    ScoredQueries(call, seen[..CHECKLIST_READS]);
  }

  lemma {:induction false} LaterStates(call: Call, seen: seq<Db>)
    requires call.SucceedEvaluation? && |seen| == Slots(call) && Chain(seen) && ValidAlone(call, seen[5])
    ensures ValidAlone(call, seen[LockSlot(call)]) && ValidAlone(call, seen[LockSlot(call) + 1])
  {
    MatchedLater(call, seen[5], seen[LockSlot(call)]);
    MatchedLater(call, seen[5], seen[LockSlot(call) + 1]);
  }

  lemma {:induction false} LinearScored(call: Call, seen: seq<Db>)
    requires call.SucceedEvaluation? && |seen| == Slots(call) && Chain(seen) && LockHeld(call, seen)
    requires Validated(call, seen)
    ensures ReplyTo(call, seen) == AtomicReply(call, seen[Point(call, seen)])
    ensures Writes(call, seen) <==> AtomicWrites(call, seen[Point(call, seen)])
  {
    ScoredStates(call, seen);
    LaterStates(call, seen);
    ScoredWrites(call, seen);
    ScoredPoint(call, seen);
    ScoredAlone(call, seen);
    AloneIfValid(call, seen[Point(call, seen)]);
  }

  lemma ScoredPoint(call: Call, seen: seq<Db>)
    requires call.SucceedEvaluation? && |seen| == Slots(call) && Validated(call, seen) && call.checklistID in seen[0].checklists
    ensures Point(call, seen) == if Writes(call, seen) then 7 else 6
  {
  }

  lemma SlotsOfScore(call: Call)
    requires call.SucceedEvaluation?
    ensures LockSlot(call) == 6 && Slots(call) == 8 + EVALUATION_READS
  {
  }

  lemma {:induction false} AfterScore(call: Call, seen: seq<Db>)
    requires call.SucceedEvaluation? && |seen| == 8 + EVALUATION_READS && Chain(seen)
    requires ValidAlone(call, seen[6]) && ValidAlone(call, seen[7]) && (IsRunning(seen[6], call) ==> IsRunning(seen[7], call))
    ensures Outcome(call, true, seen[6], seen[7], Compare(call, seen[8..])) ==
            Alone(call, if IsRunning(seen[6], call) then seen[7] else seen[6])
  {
    AfterInChain(seen, 6, 8);
    AfterLock(call, seen[6], seen[7], seen[8..]);
  }

  lemma {:induction false} ScoredAlone(call: Call, seen: seq<Db>)
    requires call.SucceedEvaluation? && |seen| == Slots(call) && Chain(seen) && Validated(call, seen)
    requires ValidAlone(call, seen[6]) && ValidAlone(call, seen[7]) && (IsRunning(seen[6], call) ==> IsRunning(seen[7], call))
    ensures ReplyTo(call, seen) == Alone(call, if IsRunning(seen[6], call) then seen[7] else seen[6])
  {
    SlotsOfScore(call);
    ScoredReply(call, seen);
    AfterScore(call, seen);
  }

  lemma {:induction false} AloneIfValid(call: Call, db: Db)
    requires call.SucceedEvaluation? && ValidAlone(call, db)
    ensures AtomicReply(call, db) == Alone(call, db)
    ensures AtomicWrites(call, db) <==> IsRunning(db, call)
  {
    EvaluationSuccessAlone(call, db);
    WritesAlone(call, db);
    ValidAloneIsMatch(call, db);
  }

  lemma ChainSlice(seen: seq<Db>, lo: nat, hi: nat)
    requires Chain(seen) && lo <= hi <= |seen|
    ensures Chain(seen[lo..hi])
  {
    var part := seen[lo..hi];
    forall i | 0 <= i < |part| ensures Inv(part[i]) {
      assert part[i] == seen[lo + i];
    }
    forall i, j | 0 <= i <= j < |part| ensures Extends(part[i], part[j]) {
      assert part[i] == seen[lo + i] && part[j] == seen[lo + j];
    }
  }

  /** Without an accepted score there is no write. */
  lemma {:induction false} UnscoredWrites(call: Call, seen: seq<Db>)
    requires call.SucceedEvaluation? && |seen| == Slots(call) && !Validated(call, seen)
    ensures !Writes(call, seen)
  {
    ValidatedByLock(call, seen);
  }

  lemma {:induction false} UnscoredReply(call: Call, seen: seq<Db>)
    requires call.SucceedEvaluation? && |seen| == Slots(call) && !Validated(call, seen)
    ensures var read := ReadChecklist(seen[..CHECKLIST_READS], call.checklistID);
            ReplyTo(call, seen) == if read.GotChecklist? then Rejected else read
  {
  }

  lemma {:induction false} UnscoredAlone(call: Call, db: Db)
    requires call.SucceedEvaluation? && !ValidAlone(call, db)
    ensures var read := ReadChecklist(Constant(db, CHECKLIST_READS), call.checklistID);
            AtomicReply(call, db) == if read.GotChecklist? then Rejected else read
    ensures !AtomicWrites(call, db)
  {
    EvaluationSuccessAlone(call, db);
    WritesAlone(call, db);
  }

  lemma {:induction false} LinearMissing(call: Call, seen: seq<Db>)
    requires call.SucceedEvaluation? && |seen| == Slots(call) && call.checklistID !in seen[0].checklists
    ensures !Validated(call, seen)
    ensures ReplyTo(call, seen) == AtomicReply(call, seen[0])
    ensures !AtomicWrites(call, seen[0])
  {
    assert !Validated(call, seen);
    ValidAloneIsMatch(call, seen[0]);
    UnscoredReply(call, seen);
    UnscoredAlone(call, seen[0]);
  }

  lemma {:induction false} LinearMismatch(call: Call, seen: seq<Db>)
    requires call.SucceedEvaluation? && |seen| == Slots(call) && Chain(seen) && !Validated(call, seen)
    requires call.checklistID in seen[0].checklists
    ensures ReplyTo(call, seen) == AtomicReply(call, seen[5])
    ensures !AtomicWrites(call, seen[5])
  {
    ChainSlice(seen, 0, CHECKLIST_READS);
    MixedRead(seen[..CHECKLIST_READS], call.checklistID);
    MatchedAtLastQuery(call, seen[..CHECKLIST_READS]);
    UnscoredReply(call, seen);
    UnscoredAlone(call, seen[5]);
  }

  lemma {:induction false} LinearUnscored(call: Call, seen: seq<Db>)
    requires call.SucceedEvaluation? && |seen| == Slots(call) && Chain(seen) && !Validated(call, seen)
    ensures ReplyTo(call, seen) == AtomicReply(call, seen[Point(call, seen)])
    ensures Writes(call, seen) <==> AtomicWrites(call, seen[Point(call, seen)])
  {
    UnscoredWrites(call, seen);
    if call.checklistID in seen[0].checklists {
      LinearMismatch(call, seen);
    } else {
      LinearMissing(call, seen);
    }
  }

  /** Every call but the two reads is linearizable: whatever commits between its statements, its reply is the one it
      would get on its own at its point, and it writes exactly when it would there. */
  lemma {:induction false} Linearizable(call: Call, seen: seq<Db>)
    requires |seen| == Slots(call) && Chain(seen) && LockHeld(call, seen)
    requires !call.GetChecklist? && !call.GetEvaluation?
    ensures ReplyTo(call, seen) == AtomicReply(call, seen[Point(call, seen)])
    ensures Writes(call, seen) <==> AtomicWrites(call, seen[Point(call, seen)])
  {
    match call {
      case CreateChecklist(_, _) =>
      case CreateEvaluation(_, _) => LinearCreateEvaluation(call, seen);
      case SucceedEvaluation(_, _, _, _) =>
        if Validated(call, seen) {
          LinearScored(call, seen);
        } else {
          LinearUnscored(call, seen);
        }
      case _ => LinearLockFirst(call, seen);
    }
  }

  // ---------------------------------------------------------------- what an acknowledgement is worth

  /** The rows of the call's entity say what the call sent. */
  ghost predicate Effective(call: Call, db: Db)
    requires call.Terminal()
  {
    RowExists(db, call) &&
    match call
    case SucceedChecklist(id, c, _) =>
      && db.checklists[id].status == Succeeded
      && Permutation(Rows(db.dimensions, id), c.dimensions) && Permutation(Rows(db.candidates, id), c.candidates)
      && Permutation(Rows(db.weights, id), c.weights) && Permutation(Rows(db.questions, id), c.questions)
    case FailChecklist(id, d) =>
      && db.checklists[id].status == Failed
      && ChecklistEntity(id) in db.failures && db.failures[ChecklistEntity(id)] == d
    case SucceedEvaluation(id, _, votes, score) =>
      && db.evaluations[id].status == Succeeded
      && Permutation(Rows(db.judgments, id), votes) && db.evaluations[id].points == Some(PointsOf(score))
    case FailEvaluation(id, _, d) =>
      && db.evaluations[id].status == Failed
      && EvaluationEntity(id) in db.failures && db.failures[EvaluationEntity(id)] == d
  }

  /** An effective call stays effective. */
  lemma {:induction false} StaysEffective(call: Call, a: Db, b: Db)
    requires call.Terminal() && Extends(a, b) && Effective(call, a)
    ensures Effective(call, b)
  {
    match call {
      case SucceedChecklist(id, _, _) => assert ChecklistKept(a, b, id);
      case FailChecklist(id, _) => assert ChecklistKept(a, b, id) && FailureKept(a, b, ChecklistEntity(id));
      case SucceedEvaluation(id, _, _, _) => assert EvaluationKept(a, b, id);
      case FailEvaluation(id, _, _) => assert EvaluationKept(a, b, id) && FailureKept(a, b, EvaluationEntity(id));
    }
  }

  lemma {:induction false} CommittedIsEffective(call: Call, db: Db)
    requires call.Terminal() && IsRunning(db, call) && Effect(call, db).Some?
    ensures Effective(call, Effect(call, db).value)
  {
  }

  lemma {:induction false} MatchingIsEffective(call: Call, db: Db)
    requires Inv(db) && call.Terminal() && RowExists(db, call) && Matches(call, db)
    requires call.SucceedEvaluation? ==> Ready(call, db)
    ensures Effective(call, db)
  {
    if call.SucceedChecklist? {
      assert ChecklistInv(db, call.id);
      ReadBackSameRows(db, call.id);
    }
    if call.SucceedEvaluation? {
      assert EvaluationInv(db, call.id);
      AggregatePermutation(QueryQuestions(db, call.checklistID), Rows(db.judgments, call.id), call.votes,
                           db.checklists[call.checklistID].evaluationRuns);
    }
  }

  /** An acknowledged call is effective afterwards. */
  lemma {:induction false} AckedIsEffective(call: Call, db: Db)
    requires Inv(db) && call.Terminal() && AtomicReply(call, db) == Acked
    ensures Effective(call, AtomicResult(call, db))
  {
    WritesAlone(call, db);
    if call.SucceedEvaluation? {
      EvaluationSuccessAlone(call, db);
    } else {
      TerminalAlone(call, db);
    }
    if IsRunning(db, call) {
      CommittedIsEffective(call, db);
    } else {
      if call.SucceedEvaluation? {
        ValidEvaluationIsReady(call, db);
      }
      RepeatedCall(call, db);
      MatchingIsEffective(call, db);
    }
  }
}
