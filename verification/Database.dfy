/** The tables, their constraints and the queries.

    Every key below the two root tables starts with checklist_id or evaluation_id, so such a table is modelled as a map
    from that id to the list of its rows, in insertion order. A transaction's inserts and its status update take effect
    together. */
module Database {
  import opened Common
  import opened Text
  import opened Seqs
  import opened Types
  import opened Validate
  import opened Score
  import opened Failures
  import Keys

  datatype Status = Running | Succeeded | Failed

  datatype ChecklistRow = ChecklistRow(status: Status, evaluationRuns: int, taskArtifactKey: string, contextArtifactKey: string)

  datatype Points = Points(satisfied: int, total: int, rate: real)

  datatype EvaluationRow = EvaluationRow(checklistID: string, status: Status, answerArtifactKey: string, points: Option<Points>)

  /** The one entity a failure record belongs to. */
  datatype Entity = ChecklistEntity(id: string) | EvaluationEntity(id: string)

  datatype Db = Db(
    checklists: map<string, ChecklistRow>,
    dimensions: map<string, seq<Dimension>>,
    candidates: map<string, seq<CandidateQuestion>>,
    weights: map<string, seq<Weight>>,
    questions: map<string, seq<FinalQuestion>>,
    evaluations: map<string, EvaluationRow>,
    judgments: map<string, seq<RunJudgment>>,
    failures: map<Entity, Details>)

  const EMPTY_DB := Db(map[], map[], map[], map[], map[], map[], map[], map[])

  function Rows<R>(table: map<string, seq<R>>, id: string): seq<R> {
    if id in table then table[id] else []
  }

  // ---------------------------------------------------------------- constraints of one row

  predicate DimensionRowOk(d: Dimension) {
    d.ordinal > 0 && !SqlBlank(d.name) && !SqlBlank(d.rubric) && !SqlBlank(d.rationale)
  }

  predicate CandidateRowOk(c: CandidateQuestion, dimensionIds: set<string>) {
    c.ordinal > 0 && !SqlBlank(c.rationale) && !SqlBlank(c.question) && c.dimensionID in dimensionIds
  }

  predicate WeightRowOk(w: Weight, candidateIds: set<string>) {
    0 <= w.weight <= 4 && !SqlBlank(w.rationale) && w.candidateQuestionID in candidateIds
  }

  predicate QuestionRowOk(q: FinalQuestion, dimensionIds: set<string>, candidateIds: set<string>) {
    && q.ordinal > 0 && !SqlBlank(q.rationale) && !SqlBlank(q.question)
    && q.dimensionID in dimensionIds && q.sourceCandidateID in candidateIds
  }

  predicate JudgmentRowOk(v: RunJudgment, questionIds: set<string>) {
    && v.runIndex > 0 && !SqlBlank(v.evidence) && (v.answer == ANSWER_YES || v.answer == ANSWER_NO)
    && v.questionID in questionIds
  }

  predicate FailureRowOk(d: Details) {
    && !SqlBlank(d.workflowID) && !SqlBlank(d.stage) && KnownClass(d.errorClass)
    && !SqlBlank(d.errorCode) && !SqlBlank(d.message) && d.attemptCount > 0
  }

  // ---------------------------------------------------------------- constraints of all rows of one checklist or evaluation

  ghost predicate DimensionRowsOk(ds: seq<Dimension>) {
    && (forall i | 0 <= i < |ds| :: DimensionRowOk(ds[i]))
    && forall i, j | 0 <= i < j < |ds| :: ds[i].id != ds[j].id && ds[i].ordinal != ds[j].ordinal
  }

  ghost predicate CandidateRowsOk(cs: seq<CandidateQuestion>, dimensionIds: set<string>) {
    && (forall i | 0 <= i < |cs| :: CandidateRowOk(cs[i], dimensionIds))
    && forall i, j | 0 <= i < j < |cs| :: cs[i].id != cs[j].id && cs[i].ordinal != cs[j].ordinal
  }

  ghost predicate WeightRowsOk(ws: seq<Weight>, candidateIds: set<string>) {
    && (forall i | 0 <= i < |ws| :: WeightRowOk(ws[i], candidateIds))
    && forall i, j | 0 <= i < j < |ws| :: ws[i].candidateQuestionID != ws[j].candidateQuestionID
  }

  ghost predicate QuestionRowsOk(qs: seq<FinalQuestion>, dimensionIds: set<string>, candidateIds: set<string>) {
    && (forall i | 0 <= i < |qs| :: QuestionRowOk(qs[i], dimensionIds, candidateIds))
    && forall i, j | 0 <= i < j < |qs| :: qs[i].id != qs[j].id && qs[i].ordinal != qs[j].ordinal
  }

  ghost predicate JudgmentRowsOk(vs: seq<RunJudgment>, questionIds: set<string>) {
    && (forall i | 0 <= i < |vs| :: JudgmentRowOk(vs[i], questionIds))
    && UniqueVotes(vs)
  }

  /** The rows of a checklist satisfy every key, unique ordinal, foreign key and check constraint. */
  ghost predicate ContentRowsOk(ds: seq<Dimension>, cs: seq<CandidateQuestion>, ws: seq<Weight>, qs: seq<FinalQuestion>) {
    && DimensionRowsOk(ds)
    && CandidateRowsOk(cs, DimensionIds(ds))
    && WeightRowsOk(ws, CandidateIds(cs))
    && QuestionRowsOk(qs, DimensionIds(ds), CandidateIds(cs))
  }

  // ---------------------------------------------------------------- queries

  predicate DimensionLe(a: Dimension, b: Dimension) { a.ordinal <= b.ordinal }

  predicate CandidateLe(a: CandidateQuestion, b: CandidateQuestion) { a.ordinal <= b.ordinal }

  predicate QuestionLe(a: FinalQuestion, b: FinalQuestion) { a.ordinal <= b.ordinal }

  /** The ordinal of the joined candidate. */
  function JoinedOrdinal(cs: seq<CandidateQuestion>, w: Weight): int {
    match FindCandidate(cs, w.candidateQuestionID)
    case Some(c) => c.ordinal
    case None => 0
  }

  function WeightOrder(cs: seq<CandidateQuestion>): (Weight, Weight) -> bool {
    (a: Weight, b: Weight) => JoinedOrdinal(cs, a) <= JoinedOrdinal(cs, b)
  }

  /** Comparison of ids as text, character by character. */
  predicate TextLe(a: string, b: string) {
    a == "" || (b != "" && (a[0] < b[0] || (a[0] == b[0] && TextLe(a[1..], b[1..]))))
  }

  predicate VoteLe(a: RunJudgment, b: RunJudgment) {
    a.runIndex < b.runIndex || (a.runIndex == b.runIndex && TextLe(a.questionID, b.questionID))
  }

  /** The inner join of weights and candidates: a weight without a candidate has no row in it. */
  function JoinWeights(ws: seq<Weight>, cs: seq<CandidateQuestion>): seq<Weight> {
    if ws == [] then []
    else JoinWeights(ws[..|ws| - 1], cs) +
         if FindCandidate(cs, ws[|ws| - 1].candidateQuestionID).Some? then [ws[|ws| - 1]] else []
  }

  function QueryDimensions(db: Db, checklistID: string): seq<Dimension> {
    SortBy(Rows(db.dimensions, checklistID), DimensionLe)
  }

  function QueryCandidates(db: Db, checklistID: string): seq<CandidateQuestion> {
    SortBy(Rows(db.candidates, checklistID), CandidateLe)
  }

  function QueryWeights(db: Db, checklistID: string): seq<Weight> {
    var cs := Rows(db.candidates, checklistID);
    SortBy(JoinWeights(Rows(db.weights, checklistID), cs), WeightOrder(cs))
  }

  function QueryQuestions(db: Db, checklistID: string): seq<FinalQuestion> {
    SortBy(Rows(db.questions, checklistID), QuestionLe)
  }

  function QueryJudgments(db: Db, evaluationID: string): seq<RunJudgment> {
    SortBy(Rows(db.judgments, evaluationID), VoteLe)
  }

  // ---------------------------------------------------------------- the invariant of all tables

  ghost predicate NoContent(db: Db, checklistID: string) {
    && Rows(db.dimensions, checklistID) == [] && Rows(db.candidates, checklistID) == []
    && Rows(db.weights, checklistID) == [] && Rows(db.questions, checklistID) == []
  }

  ghost predicate Stored(db: Db, checklistID: string) {
    && ContentRowsOk(Rows(db.dimensions, checklistID), Rows(db.candidates, checklistID),
                     Rows(db.weights, checklistID), Rows(db.questions, checklistID))
    && JudgeableQuestions(QueryQuestions(db, checklistID))
  }

  /** Result rows iff succeeded, a failure record iff failed. */
  ghost predicate ChecklistInv(db: Db, id: string)
    requires id in db.checklists
  {
    var row := db.checklists[id];
    && ValidEvaluationRuns(row.evaluationRuns, row.evaluationRuns)
    && row.taskArtifactKey == Keys.ChecklistTaskKey(id) && row.contextArtifactKey == Keys.ChecklistContextKey(id)
    && (row.status == Succeeded ==> Stored(db, id))
    && (row.status != Succeeded ==> NoContent(db, id))
    && (row.status == Failed <==> ChecklistEntity(id) in db.failures)
  }

  function PointsOf(s: ScoreResult): Points {
    Points(s.satisfiedPoints, s.totalPossiblePoints, s.checklistPassRate)
  }

  /** The votes of a succeeded evaluation aggregate, over its checklist, to the points of its row. */
  ghost predicate Scored(db: Db, id: string)
    requires id in db.evaluations && db.evaluations[id].checklistID in db.checklists
  {
    var row := db.evaluations[id];
    var qs, runs := QueryQuestions(db, row.checklistID), db.checklists[row.checklistID].evaluationRuns;
    && Accepted(qs, Rows(db.judgments, id), runs)
    && row.points == Some(PointsOf(Aggregate(qs, Rows(db.judgments, id), runs).score))
  }

  /** The checklist of an evaluation has succeeded; votes and points iff the evaluation has, a failure record iff it failed. */
  ghost predicate EvaluationInv(db: Db, id: string)
    requires id in db.evaluations
  {
    var row := db.evaluations[id];
    && row.checklistID in db.checklists && db.checklists[row.checklistID].status == Succeeded
    && row.answerArtifactKey == Keys.EvaluationAnswerKey(id)
    && (row.status == Succeeded ==> Scored(db, id))
    && (row.status != Succeeded ==> Rows(db.judgments, id) == [] && row.points == None)
    && (row.status == Failed <==> EvaluationEntity(id) in db.failures)
  }

  ghost predicate EntityExists(db: Db, e: Entity) {
    match e
    case ChecklistEntity(id) => id in db.checklists
    case EvaluationEntity(id) => id in db.evaluations
  }

  ghost predicate NoOrphans(db: Db) {
    && (forall id | id !in db.checklists :: NoContent(db, id))
    && forall id | id !in db.evaluations :: Rows(db.judgments, id) == []
  }

  ghost predicate FailureInv(db: Db, e: Entity)
    requires e in db.failures
  {
    EntityExists(db, e) && DetailsOk(db.failures[e])
  }

  ghost predicate Inv(db: Db) {
    && (forall id | id in db.checklists :: ChecklistInv(db, id))
    && (forall id | id in db.evaluations :: EvaluationInv(db, id))
    && NoOrphans(db)
    && forall e | e in db.failures :: FailureInv(db, e)
  }

  // ---------------------------------------------------------------- what later states keep of earlier ones

  ghost predicate SameContent(a: Db, b: Db, id: string) {
    && Rows(a.dimensions, id) == Rows(b.dimensions, id) && Rows(a.candidates, id) == Rows(b.candidates, id)
    && Rows(a.weights, id) == Rows(b.weights, id) && Rows(a.questions, id) == Rows(b.questions, id)
  }

  /** A row keeps its identity; once terminal it and everything that belongs to it stay as they are. */
  ghost predicate ChecklistKept(a: Db, b: Db, id: string)
    requires id in a.checklists
  {
    && id in b.checklists
    && b.checklists[id] == a.checklists[id].(status := b.checklists[id].status)
    && (a.checklists[id].status != Running ==> b.checklists[id] == a.checklists[id] && SameContent(a, b, id))
  }

  ghost predicate EvaluationKept(a: Db, b: Db, id: string)
    requires id in a.evaluations
  {
    && id in b.evaluations
    && b.evaluations[id].checklistID == a.evaluations[id].checklistID
    && b.evaluations[id].answerArtifactKey == a.evaluations[id].answerArtifactKey
    && (a.evaluations[id].status != Running ==>
          b.evaluations[id] == a.evaluations[id] && Rows(a.judgments, id) == Rows(b.judgments, id))
  }

  ghost predicate FailureKept(a: Db, b: Db, e: Entity)
    requires e in a.failures
  {
    e in b.failures && b.failures[e] == a.failures[e]
  }

  ghost predicate Extends(a: Db, b: Db) {
    && (forall id | id in a.checklists :: ChecklistKept(a, b, id))
    && (forall id | id in a.evaluations :: EvaluationKept(a, b, id))
    && (forall e | e in a.failures :: FailureKept(a, b, e))
  }

  lemma ExtendsReflexive(a: Db)
    ensures Extends(a, a)
  {
  }

  lemma {:induction false} ExtendsTransitive(a: Db, b: Db, c: Db)
    requires Extends(a, b) && Extends(b, c)
    ensures Extends(a, c)
  {
    forall id | id in a.checklists ensures ChecklistKept(a, c, id) {
      assert ChecklistKept(a, b, id) && ChecklistKept(b, c, id);
    }
    forall id | id in a.evaluations ensures EvaluationKept(a, c, id) {
      assert EvaluationKept(a, b, id) && EvaluationKept(b, c, id);
    }
    forall e | e in a.failures ensures FailureKept(a, c, e) {
      assert FailureKept(a, b, e) && FailureKept(b, c, e);
    }
  }

  /** The queries of a terminal checklist return the same in every later state. */
  lemma {:induction false} QueriesKept(a: Db, b: Db, id: string)
    requires Extends(a, b) && id in a.checklists && a.checklists[id].status != Running
    ensures b.checklists[id] == a.checklists[id]
    ensures QueryDimensions(a, id) == QueryDimensions(b, id) && QueryCandidates(a, id) == QueryCandidates(b, id)
    ensures QueryWeights(a, id) == QueryWeights(b, id) && QueryQuestions(a, id) == QueryQuestions(b, id)
  {
    assert ChecklistKept(a, b, id);
  }

  lemma EmptyDbInv()
    ensures Inv(EMPTY_DB)
  {
  }
}
