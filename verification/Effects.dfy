/** What committing a call does: the tables stay consistent, terminal rows stay as they are, and the constraints of the
    schema refuse nothing but repeated ordinals. */
module Effects {
  import opened Common
  import opened Text
  import opened Seqs
  import opened Lookup
  import opened Types
  import opened Validate
  import opened Score
  import opened Failures
  import opened Database
  import opened Calls

  /** What a call has established by the time it commits. */
  ghost predicate Ready(call: Call, db: Db) {
    match call
    case CreateChecklist(_, runs) => ValidEvaluationRuns(runs, runs)
    case CreateEvaluation(_, c) => c in db.checklists && db.checklists[c].status == Succeeded
    case SucceedChecklist(_, c, limits) => ContentArgsOk(c, limits)
    case FailChecklist(_, d) => DetailsOk(d)
    case FailEvaluation(_, _, d) => DetailsOk(d)
    case SucceedEvaluation(_, c, votes, score) =>
      && c in db.checklists && db.checklists[c].status == Succeeded
      && Accepted(QueryQuestions(db, c), votes, db.checklists[c].evaluationRuns)
      && score == Aggregate(QueryQuestions(db, c), votes, db.checklists[c].evaluationRuns).score
    case GetChecklist(_) => false
    case GetEvaluation(_) => false
  }

  lemma {:induction false} JudgeablePermutation(a: seq<FinalQuestion>, b: seq<FinalQuestion>)
    requires Permutation(a, b) && JudgeableQuestions(a)
    ensures JudgeableQuestions(b) && QuestionIds(b) == QuestionIds(a)
  {
    var key := (q: FinalQuestion) => q.id;
    assert UniqueBy(a, key);
    PermutationKeepsUnique(a, b, key);
    PermutationBasics(a, b);
    forall i, j | 0 <= i < j < |b| ensures b[i].id != b[j].id {
      assert key(b[i]) != key(b[j]);
    }
    forall i | 0 <= i < |b| ensures !Blank(b[i].id) {
      assert b[i] in a;
    }
    IdsOfPermutation(a, b);
  }

  lemma {:induction false} IdsOfPermutation(a: seq<FinalQuestion>, b: seq<FinalQuestion>)
    requires Permutation(a, b)
    ensures QuestionIds(b) == QuestionIds(a)
  {
    PermutationBasics(a, b);
    forall id ensures id in QuestionIds(a) <==> id in QuestionIds(b) {
      if id in QuestionIds(a) {
        var i :| 0 <= i < |a| && a[i].id == id;
        assert a[i] in b;
      }
      if id in QuestionIds(b) {
        var i :| 0 <= i < |b| && b[i].id == id;
        assert b[i] in a;
      }
    }
  }

  // ---------------------------------------------------------------- what the schema accepts

  ghost predicate DistinctOrdinals(c: Content) {
    && (forall i, j | 0 <= i < j < |c.dimensions| :: c.dimensions[i].ordinal != c.dimensions[j].ordinal)
    && forall i, j | 0 <= i < j < |c.candidates| :: c.candidates[i].ordinal != c.candidates[j].ordinal
  }

  lemma {:induction false} ValidRowsOk(c: Content, limits: ChecklistLimits)
    requires ContentArgsOk(c, limits)
    ensures forall i | 0 <= i < |c.dimensions| :: DimensionRowOk(c.dimensions[i])
    ensures forall i | 0 <= i < |c.candidates| :: CandidateRowOk(c.candidates[i], DimensionIds(c.dimensions))
    ensures WeightRowsOk(c.weights, CandidateIds(c.candidates))
    ensures QuestionRowsOk(c.questions, DimensionIds(c.dimensions), CandidateIds(c.candidates))
  {
    forall i | 0 <= i < |c.dimensions| ensures DimensionRowOk(c.dimensions[i]) {
      assert DimensionOk(c.dimensions[i]);
      NotBlankIsNotSqlBlank(c.dimensions[i].name);
      NotBlankIsNotSqlBlank(c.dimensions[i].rubric);
      NotBlankIsNotSqlBlank(c.dimensions[i].rationale);
    }
    forall i | 0 <= i < |c.candidates| ensures CandidateRowOk(c.candidates[i], DimensionIds(c.dimensions)) {
      assert CandidateOk(c.candidates[i], DimensionIds(c.dimensions));
      NotBlankIsNotSqlBlank(c.candidates[i].rationale);
      NotBlankIsNotSqlBlank(c.candidates[i].question);
    }
    forall i | 0 <= i < |c.weights| ensures WeightRowOk(c.weights[i], CandidateIds(c.candidates)) {
      assert WeightOk(c.weights[i]);
      assert c.weights[i].candidateQuestionID in WeightIds(c.weights);
      NotBlankIsNotSqlBlank(c.weights[i].rationale);
    }
    forall i | 0 <= i < |c.questions|
      ensures QuestionRowOk(c.questions[i], DimensionIds(c.dimensions), CandidateIds(c.candidates))
    {
      var q := c.questions[i];
      assert FinalQuestionOk(q, c.dimensions, c.candidates);
      var source := FindCandidate(c.candidates, q.sourceCandidateID).value;
      assert source in c.candidates && source.id == q.sourceCandidateID;
      NotBlankIsNotSqlBlank(q.rationale);
      NotBlankIsNotSqlBlank(q.question);
    }
  }

  /** Of everything the validators accept, the schema refuses exactly the repeated ordinals they do not look at. */
  lemma {:induction false} SchemaAcceptsContent(c: Content, limits: ChecklistLimits)
    requires ContentArgsOk(c, limits)
    ensures ContentRowsOk(c.dimensions, c.candidates, c.weights, c.questions) <==> DistinctOrdinals(c)
  {
    ValidRowsOk(c, limits);
  }

  lemma {:induction false} SchemaAcceptsVotes(qs: seq<FinalQuestion>, votes: seq<RunJudgment>, runs: int)
    requires Accepted(qs, votes, runs)
    ensures JudgmentRowsOk(votes, QuestionIds(qs)) && PointsRowOk(Aggregate(qs, votes, runs).score)
  {
    forall i | 0 <= i < |votes| ensures JudgmentRowOk(votes[i], QuestionIds(qs)) {
      assert VoteOk(votes[i], runs, QuestionIds(qs));
      NotBlankIsNotSqlBlank(votes[i].evidence);
    }
    ScoreConserves(qs, Derived(qs, votes, runs));
  }

  lemma {:induction false} SchemaAcceptsFailure(d: Details)
    requires DetailsOk(d)
    ensures FailureRowOk(d)
  {
    NotBlankIsNotSqlBlank(d.workflowID);
    NotBlankIsNotSqlBlank(d.stage);
    NotBlankIsNotSqlBlank(d.errorCode);
    NotBlankIsNotSqlBlank(d.message);
  }

  /** A terminal call that has been validated and finds its row running always commits, repeated ordinals aside. */
  lemma {:induction false} CommitsWhenReady(call: Call, db: Db)
    requires Inv(db) && call.Terminal() && Ready(call, db) && IsRunning(db, call)
    ensures Effect(call, db).Some? <==> (call.SucceedChecklist? ==> DistinctOrdinals(call.content))
  {
    match call {
      case SucceedChecklist(_, c, limits) => SchemaAcceptsContent(c, limits);
      case FailChecklist(id, d) =>
        SchemaAcceptsFailure(d);
        assert ChecklistInv(db, id);
      case FailEvaluation(id, _, d) =>
        SchemaAcceptsFailure(d);
        assert EvaluationInv(db, id);
      case SucceedEvaluation(_, c, votes, _) =>
        SchemaAcceptsVotes(QueryQuestions(db, c), votes, db.checklists[c].evaluationRuns);
        IdsOfPermutation(QueryQuestions(db, c), Rows(db.questions, c));
    }
  }

  // ---------------------------------------------------------------- every commit keeps the invariant

  /** Everything about checklist id is the same in both states. */
  ghost predicate SameChecklist(a: Db, b: Db, id: string) {
    && (id in a.checklists <==> id in b.checklists)
    && (id in a.checklists ==> a.checklists[id] == b.checklists[id])
    && SameContent(a, b, id)
    && (ChecklistEntity(id) in a.failures <==> ChecklistEntity(id) in b.failures)
  }

  /** And about evaluation id. */
  ghost predicate SameEvaluation(a: Db, b: Db, id: string) {
    && (id in a.evaluations <==> id in b.evaluations)
    && (id in a.evaluations ==> a.evaluations[id] == b.evaluations[id])
    && Rows(a.judgments, id) == Rows(b.judgments, id)
    && (EvaluationEntity(id) in a.failures <==> EvaluationEntity(id) in b.failures)
  }

  /** Nothing but e changes, and no failure record goes away or is rewritten. */
  ghost predicate OnlyChanges(a: Db, b: Db, e: Entity) {
    && (forall x | e != ChecklistEntity(x) :: SameChecklist(a, b, x))
    && (forall x | e != EvaluationEntity(x) :: SameEvaluation(a, b, x))
    && (forall x | x in a.failures :: FailureKept(a, b, x))
    && forall x | x in b.failures && x != e :: x in a.failures && b.failures[x] == a.failures[x]
  }

  /** The changed entity is as it should be, and it was running or not there. */
  ghost predicate GoodChange(a: Db, b: Db, e: Entity) {
    && (e in b.failures ==> DetailsOk(b.failures[e]))
    && match e
       case ChecklistEntity(id) =>
         && id in b.checklists && ChecklistInv(b, id)
         && (id in a.checklists ==> a.checklists[id].status != Succeeded && ChecklistKept(a, b, id))
       case EvaluationEntity(id) =>
         && id in b.evaluations && EvaluationInv(b, id)
         && (id in a.evaluations ==> EvaluationKept(a, b, id))
  }

  lemma {:induction false} ChecklistCarried(a: Db, b: Db, id: string)
    requires id in a.checklists && ChecklistInv(a, id) && SameChecklist(a, b, id)
    ensures ChecklistInv(b, id) && ChecklistKept(a, b, id)
  {
  }

  lemma {:induction false} EvaluationCarried(a: Db, b: Db, id: string)
    requires id in a.evaluations && EvaluationInv(a, id) && SameEvaluation(a, b, id)
    requires SameChecklist(a, b, a.evaluations[id].checklistID)
    ensures EvaluationInv(b, id) && EvaluationKept(a, b, id)
  {
  }

  lemma {:induction false} EachChecklistCarried(a: Db, b: Db, e: Entity, id: string)
    requires (id in a.checklists ==> ChecklistInv(a, id)) && OnlyChanges(a, b, e) && GoodChange(a, b, e)
    ensures id in b.checklists ==> ChecklistInv(b, id)
    ensures id in a.checklists ==> ChecklistKept(a, b, id)
  {
    if e != ChecklistEntity(id) {
      assert SameChecklist(a, b, id);
      if id in a.checklists {
        ChecklistCarried(a, b, id);
      }
    }
  }

  lemma {:induction false} ChecklistsCarried(a: Db, b: Db, e: Entity)
    requires Inv(a) && OnlyChanges(a, b, e) && GoodChange(a, b, e)
    ensures forall x | x in b.checklists :: ChecklistInv(b, x)
    ensures forall x | x in a.checklists :: ChecklistKept(a, b, x)
  {
    forall x
      ensures x in b.checklists ==> ChecklistInv(b, x)
      ensures x in a.checklists ==> ChecklistKept(a, b, x)
    {
      EachChecklistCarried(a, b, e, x);
    }
  }

  lemma {:induction false} EachEvaluationCarried(a: Db, b: Db, e: Entity, id: string)
    requires id in a.evaluations && EvaluationInv(a, id) && e != EvaluationEntity(id)
    requires OnlyChanges(a, b, e) && GoodChange(a, b, e)
    ensures EvaluationInv(b, id) && EvaluationKept(a, b, id)
  {
    assert SameEvaluation(a, b, id);
    assert SameChecklist(a, b, a.evaluations[id].checklistID);
    EvaluationCarried(a, b, id);
  }

  lemma {:induction false} EvaluationsCarried(a: Db, b: Db, e: Entity)
    requires Inv(a) && OnlyChanges(a, b, e) && GoodChange(a, b, e)
    ensures forall x | x in b.evaluations :: EvaluationInv(b, x)
    ensures forall x | x in a.evaluations :: EvaluationKept(a, b, x)
  {
    forall x | x in a.evaluations && e != EvaluationEntity(x) ensures EvaluationInv(b, x) && EvaluationKept(a, b, x) {
      EachEvaluationCarried(a, b, e, x);
    }
    NoOtherEvaluations(a, b, e);
  }

  lemma NoOtherEvaluations(a: Db, b: Db, e: Entity)
    requires OnlyChanges(a, b, e)
    ensures forall x | x in b.evaluations && e != EvaluationEntity(x) :: x in a.evaluations
  {
    forall x | x in b.evaluations && e != EvaluationEntity(x) ensures x in a.evaluations {
      assert SameEvaluation(a, b, x);
    }
  }

  lemma {:induction false} NoOrphansCarried(a: Db, b: Db, e: Entity)
    requires NoOrphans(a) && OnlyChanges(a, b, e) && EntityExists(b, e)
    ensures NoOrphans(b)
  {
    forall x | x !in b.checklists ensures NoContent(b, x) {
      assert SameChecklist(a, b, x);
      assert NoContent(a, x);
    }
    forall x | x !in b.evaluations ensures Rows(b.judgments, x) == [] {
      assert SameEvaluation(a, b, x);
    }
  }

  lemma {:induction false} FailuresCarried(a: Db, b: Db, e: Entity)
    requires forall x | x in a.failures :: FailureInv(a, x)
    requires OnlyChanges(a, b, e) && GoodChange(a, b, e)
    ensures forall x | x in b.failures :: FailureInv(b, x)
  {
    forall x | x in b.failures ensures FailureInv(b, x) {
      if x != e {
        assert FailureInv(a, x);
        match x {
          case ChecklistEntity(id) => assert SameChecklist(a, b, id);
          case EvaluationEntity(id) => assert SameEvaluation(a, b, id);
        }
      }
    }
  }

  /** A good change of one entity keeps the whole database consistent. */
  lemma {:induction false} ChangeIsSafe(a: Db, b: Db, e: Entity)
    requires Inv(a) && OnlyChanges(a, b, e) && GoodChange(a, b, e)
    ensures Inv(b) && Extends(a, b)
  {
    ChecklistsCarried(a, b, e);
    EvaluationsCarried(a, b, e);
    NoOrphansCarried(a, b, e);
    FailuresCarried(a, b, e);
  }

  /** The entity a writing call changes. */
  function Changed(call: Call): Entity {
    if call.CreateChecklist? || call.SucceedChecklist? || call.FailChecklist? || call.GetChecklist? then ChecklistEntity(call.id)
    else EvaluationEntity(call.id)
  }

  ghost predicate FailureAdded(a: Db, b: Db, e: Entity) {
    b.failures == a.failures || (e !in a.failures && e in b.failures && b.failures == a.failures[e := b.failures[e]])
  }

  lemma {:induction false} ChecklistChangesOnly(a: Db, b: Db, id: string)
    requires b.evaluations == a.evaluations && b.judgments == a.judgments
    requires forall x | x != id ::
               (x in a.checklists <==> x in b.checklists) && (x in a.checklists ==> a.checklists[x] == b.checklists[x])
    requires forall x | x != id :: SameContent(a, b, x)
    requires FailureAdded(a, b, ChecklistEntity(id))
    ensures OnlyChanges(a, b, ChecklistEntity(id))
  {
  }

  lemma {:induction false} EvaluationChangesOnly(a: Db, b: Db, id: string)
    requires b == a.(evaluations := b.evaluations, judgments := b.judgments, failures := b.failures)
    requires forall x | x != id ::
               (x in a.evaluations <==> x in b.evaluations) && (x in a.evaluations ==> a.evaluations[x] == b.evaluations[x])
    requires forall x | x != id :: Rows(a.judgments, x) == Rows(b.judgments, x)
    requires FailureAdded(a, b, EvaluationEntity(id))
    ensures OnlyChanges(a, b, EvaluationEntity(id))
  {
  }

  lemma {:induction false} CreationOnlyChanges(call: Call, db: Db)
    requires (call.CreateChecklist? || call.CreateEvaluation?) && Effect(call, db).Some?
    ensures OnlyChanges(db, Effect(call, db).value, Changed(call))
  {
    if call.CreateChecklist? {
      ChecklistChangesOnly(db, Effect(call, db).value, call.id);
    } else {
      EvaluationChangesOnly(db, Effect(call, db).value, call.id);
    }
  }

  lemma {:induction false} SuccessOnlyChanges(call: Call, db: Db)
    requires (call.SucceedChecklist? || call.SucceedEvaluation?) && Effect(call, db).Some?
    ensures OnlyChanges(db, Effect(call, db).value, Changed(call))
  {
    if call.SucceedChecklist? {
      ChecklistChangesOnly(db, Effect(call, db).value, call.id);
    } else {
      EvaluationChangesOnly(db, Effect(call, db).value, call.id);
    }
  }

  lemma {:induction false} FailureOnlyChanges(call: Call, db: Db)
    requires (call.FailChecklist? || call.FailEvaluation?) && Effect(call, db).Some?
    ensures OnlyChanges(db, Effect(call, db).value, Changed(call))
  {
    if call.FailChecklist? {
      ChecklistChangesOnly(db, Effect(call, db).value, call.id);
    } else {
      EvaluationChangesOnly(db, Effect(call, db).value, call.id);
    }
  }

  lemma {:induction false} CommitOnlyChanges(call: Call, db: Db)
    requires Effect(call, db).Some?
    ensures OnlyChanges(db, Effect(call, db).value, Changed(call))
  {
    if call.CreateChecklist? || call.CreateEvaluation? {
      CreationOnlyChanges(call, db);
    } else if call.SucceedChecklist? || call.SucceedEvaluation? {
      SuccessOnlyChanges(call, db);
    } else {
      FailureOnlyChanges(call, db);
    }
  }

  /** What the invariant says about the one entity of a call. */
  ghost predicate LocalInv(db: Db, e: Entity) {
    match e
    case ChecklistEntity(id) =>
      if id in db.checklists then ChecklistInv(db, id) else e !in db.failures && NoContent(db, id)
    case EvaluationEntity(id) =>
      if id in db.evaluations then EvaluationInv(db, id) else e !in db.failures && Rows(db.judgments, id) == []
  }

  lemma {:induction false} LocalFromInv(db: Db, e: Entity)
    requires Inv(db)
    ensures LocalInv(db, e)
  {
    assert e in db.failures ==> FailureInv(db, e);
  }

  lemma {:induction false} CreateChecklistIsGood(call: Call, db: Db)
    requires call.CreateChecklist? && Ready(call, db) && Effect(call, db).Some?
    requires LocalInv(db, Changed(call))
    ensures GoodChange(db, Effect(call, db).value, Changed(call))
  {
  }

  lemma {:induction false} CreateEvaluationIsGood(call: Call, db: Db)
    requires call.CreateEvaluation? && Ready(call, db) && Effect(call, db).Some?
    requires LocalInv(db, Changed(call))
    ensures GoodChange(db, Effect(call, db).value, Changed(call))
  {
  }

  lemma {:induction false} StoredContent(b: Db, id: string, c: Content, limits: ChecklistLimits)
    requires ContentRowsOk(c.dimensions, c.candidates, c.weights, c.questions)
    requires FinalQuestionsOk(c.dimensions, c.candidates, c.questions, limits)
    requires Rows(b.dimensions, id) == c.dimensions && Rows(b.candidates, id) == c.candidates
    requires Rows(b.weights, id) == c.weights && Rows(b.questions, id) == c.questions
    ensures Stored(b, id)
  {
    assert forall i | 0 <= i < |c.questions| :: FinalQuestionOk(c.questions[i], c.dimensions, c.candidates);
    JudgeablePermutation(c.questions, QueryQuestions(b, id));
  }

  lemma {:induction false} SucceedChecklistIsGood(call: Call, db: Db)
    requires call.SucceedChecklist? && Ready(call, db) && Effect(call, db).Some?
    requires LocalInv(db, Changed(call))
    ensures GoodChange(db, Effect(call, db).value, Changed(call))
  {
    var b := Effect(call, db).value;
    StoredContent(b, call.id, call.content, call.limits);
    assert b.checklists[call.id] == db.checklists[call.id].(status := Succeeded);
  }

  lemma {:induction false} FailChecklistIsGood(call: Call, db: Db)
    requires call.FailChecklist? && Ready(call, db) && Effect(call, db).Some?
    requires LocalInv(db, Changed(call))
    ensures GoodChange(db, Effect(call, db).value, Changed(call))
  {
    var b := Effect(call, db).value;
    assert b.checklists[call.id] == db.checklists[call.id].(status := Failed);
    assert SameContent(db, b, call.id);
    assert ChecklistInv(b, call.id);
  }

  lemma {:induction false} FailEvaluationIsGood(call: Call, db: Db)
    requires call.FailEvaluation? && Ready(call, db) && Effect(call, db).Some?
    requires LocalInv(db, Changed(call))
    ensures GoodChange(db, Effect(call, db).value, Changed(call))
  {
    var b := Effect(call, db).value;
    assert b.evaluations[call.id] == db.evaluations[call.id].(status := Failed, points := None);
  }

  lemma {:induction false} SucceedEvaluationIsGood(call: Call, db: Db)
    requires call.SucceedEvaluation? && Ready(call, db) && Effect(call, db).Some?
    requires LocalInv(db, Changed(call))
    ensures GoodChange(db, Effect(call, db).value, Changed(call))
  {
    var b := Effect(call, db).value;
    assert QueryQuestions(b, call.checklistID) == QueryQuestions(db, call.checklistID);
    assert Rows(b.judgments, call.id) == call.votes;
  }

  lemma {:induction false} CommitIsGood(call: Call, db: Db)
    requires Ready(call, db) && Effect(call, db).Some? && LocalInv(db, Changed(call))
    ensures GoodChange(db, Effect(call, db).value, Changed(call))
  {
    match call {
      case CreateChecklist(_, _) => CreateChecklistIsGood(call, db);
      case CreateEvaluation(_, _) => CreateEvaluationIsGood(call, db);
      case SucceedChecklist(_, _, _) => SucceedChecklistIsGood(call, db);
      case FailChecklist(_, _) => FailChecklistIsGood(call, db);
      case SucceedEvaluation(_, _, _, _) => SucceedEvaluationIsGood(call, db);
      case FailEvaluation(_, _, _) => FailEvaluationIsGood(call, db);
    }
  }

  /** Every commit keeps the invariant and every terminal row. */
  lemma {:induction false} CommitIsSafe(call: Call, db: Db)
    requires Inv(db) && Ready(call, db) && Effect(call, db).Some?
    ensures Inv(Effect(call, db).value) && Extends(db, Effect(call, db).value)
  {
    CommitOnlyChanges(call, db);
    LocalFromInv(db, Changed(call));
    CommitIsGood(call, db);
    ChangeIsSafe(db, Effect(call, db).value, Changed(call));
  }
}
