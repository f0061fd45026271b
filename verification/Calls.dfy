/** The store's operations as programs over the database.

    A call runs a fixed number of statements; statement k sees the database as it is at that moment, seen[k]. Everything a
    call decides is a function of what its statements saw. A statement the call would skip is a read nobody looks at. */
module Calls {
  import opened Common
  import opened Types
  import opened Validate
  import opened Score
  import opened Aggregation
  import opened Failures
  import opened Database
  import Keys

  datatype Content = Content(
    dimensions: seq<Dimension>, candidates: seq<CandidateQuestion>, weights: seq<Weight>, questions: seq<FinalQuestion>)

  datatype Call =
    | CreateChecklist(id: string, evaluationRuns: int)
    | CreateEvaluation(id: string, checklistID: string)
    | SucceedChecklist(id: string, content: Content, limits: ChecklistLimits)
    | FailChecklist(id: string, details: Details)
    | SucceedEvaluation(id: string, checklistID: string, votes: seq<RunJudgment>, score: ScoreResult)
    | FailEvaluation(id: string, checklistID: string, details: Details)
    | GetChecklist(id: string)
    | GetEvaluation(id: string)
  {
    predicate Terminal() {
      SucceedChecklist? || FailChecklist? || SucceedEvaluation? || FailEvaluation?
    }

    /** The row a terminal call locks. */
    function Entity(): Entity
      requires Terminal()
    {
      if SucceedChecklist? || FailChecklist? then ChecklistEntity(id) else EvaluationEntity(id)
    }
  }

  datatype Checklist = Checklist(
    id: string, status: Status, evaluationRuns: int, taskArtifactKey: string, contextArtifactKey: string,
    failure: Option<Details>, content: Content)

  datatype Evaluation = Evaluation(
    id: string, checklistID: string, status: Status, answerArtifactKey: string, points: Option<Points>,
    failure: Option<Details>, runJudgments: seq<RunJudgment>, judgments: seq<AggregatedJudgment>, failedQuestionIDs: seq<string>)

  /** `Broken`: the stored votes no longer aggregate. */
  datatype Reply =
    | Acked
    | NotFound
    | Conflict
    | Rejected
    | SqlFailure
    | Broken
    | GotChecklist(checklist: Checklist)
    | GotEvaluation(evaluation: Evaluation)

  // ---------------------------------------------------------------- reading

  const CHECKLIST_READS := 6
  const EVALUATION_READS := 9

  /** `GetChecklist`: the row, the failure record if failed, dimensions, candidates, weights, questions. */
  function ReadChecklist(seen: seq<Db>, id: string): Reply
    requires |seen| == CHECKLIST_READS
  {
    if id !in seen[0].checklists then NotFound
    else
      var row := seen[0].checklists[id];
      if row.status == Failed && ChecklistEntity(id) !in seen[1].failures then NotFound
      else
        GotChecklist(Checklist(
          id, row.status, row.evaluationRuns, row.taskArtifactKey, row.contextArtifactKey,
          if row.status == Failed then Some(seen[1].failures[ChecklistEntity(id)]) else None,
          Content(QueryDimensions(seen[2], id), QueryCandidates(seen[3], id), QueryWeights(seen[4], id), QueryQuestions(seen[5], id))))
  }

  /** A succeeded evaluation with its votes aggregated over its checklist. */
  ghost function Rescore(got: Evaluation, checklist: Reply): Reply {
    match checklist
    case GotChecklist(c) =>
      if !Accepted(c.content.questions, got.runJudgments, c.evaluationRuns) then Broken
      else
        var aggregated := Aggregate(c.content.questions, got.runJudgments, c.evaluationRuns);
        GotEvaluation(got.(judgments := aggregated.judgments, failedQuestionIDs := aggregated.score.failedQuestionIDs))
    case _ => checklist
  }

  /** `GetEvaluation`: the row, the failure record if failed, the votes, and if succeeded the checklist to aggregate over. */
  ghost function ReadEvaluation(seen: seq<Db>, id: string): Reply
    requires |seen| == EVALUATION_READS
  {
    if id !in seen[0].evaluations then NotFound
    else
      var row := seen[0].evaluations[id];
      if row.status == Failed && EvaluationEntity(id) !in seen[1].failures then NotFound
      else
        var failure := if row.status == Failed then Some(seen[1].failures[EvaluationEntity(id)]) else None;
        var got := Evaluation(id, row.checklistID, row.status, row.answerArtifactKey, row.points, failure,
                              QueryJudgments(seen[2], id), [], []);
        if row.status != Succeeded then GotEvaluation(got)
        else Rescore(got, ReadChecklist(seen[3..], row.checklistID))
  }

  // ---------------------------------------------------------------- terminal calls

  /** What `SucceedChecklist` validates before it opens a transaction. */
  ghost predicate ContentArgsOk(c: Content, limits: ChecklistLimits) {
    && limits.Valid()
    && DimensionsOk(c.dimensions, limits)
    && CandidatesOk(c.dimensions, c.candidates, limits)
    && WeightsOk(c.candidates, c.weights, limits)
    && FinalQuestionsOk(c.dimensions, c.candidates, c.questions, limits)
  }

  function StoreContent(db: Db, id: string, c: Content): Db {
    db.(dimensions := db.dimensions[id := c.dimensions], candidates := db.candidates[id := c.candidates],
        weights := db.weights[id := c.weights], questions := db.questions[id := c.questions])
  }

  function SetChecklistStatus(db: Db, id: string, status: Status): Db
    requires id in db.checklists
  {
    db.(checklists := db.checklists[id := db.checklists[id].(status := status)])
  }

  function SetEvaluationStatus(db: Db, id: string, status: Status, points: Option<Points>): Db
    requires id in db.evaluations
  {
    db.(evaluations := db.evaluations[id := db.evaluations[id].(status := status, points := points)])
  }

  predicate PointsRowOk(s: ScoreResult) {
    s.satisfiedPoints >= 0 && s.totalPossiblePoints > 0 && 0.0 <= s.checklistPassRate <= 1.0
  }

  /** `lockStatus`: the status of the row a terminal call is about, if there is such a row. */
  function LockStatus(db: Db, call: Call): Option<Status>
    requires call.Terminal()
  {
    if call.SucceedChecklist? || call.FailChecklist? then
      if call.id in db.checklists then Some(db.checklists[call.id].status) else None
    else
      if call.id in db.evaluations && db.evaluations[call.id].checklistID == call.checklistID
      then Some(db.evaluations[call.id].status) else None
  }

  predicate IsRunning(db: Db, call: Call)
    requires call.Terminal()
  {
    LockStatus(db, call) == Some(Running)
  }

  predicate RowExists(db: Db, call: Call)
    requires call.Terminal()
  {
    LockStatus(db, call).Some?
  }

  /** What committing a call's transaction makes of the database; None when a constraint or the row's status refuses it. */
  ghost function Effect(call: Call, db: Db): Option<Db> {
    match call
    case CreateChecklist(id, runs) =>
      if id in db.checklists || runs <= 0 || runs % 2 != 1 then None
      else Some(db.(checklists := db.checklists[id :=
        ChecklistRow(Running, runs, Keys.ChecklistTaskKey(id), Keys.ChecklistContextKey(id))]))
    case CreateEvaluation(id, c) =>
      if id in db.evaluations || c !in db.checklists then None
      else Some(db.(evaluations := db.evaluations[id := EvaluationRow(c, Running, Keys.EvaluationAnswerKey(id), None)]))
    case SucceedChecklist(id, c, _) =>
      if !IsRunning(db, call) || !ContentRowsOk(c.dimensions, c.candidates, c.weights, c.questions) then None
      else Some(SetChecklistStatus(StoreContent(db, id, c), id, Succeeded))
    case FailChecklist(id, d) =>
      if !IsRunning(db, call) || ChecklistEntity(id) in db.failures || !FailureRowOk(d) then None
      else Some(SetChecklistStatus(db.(failures := db.failures[ChecklistEntity(id) := d]), id, Failed))
    case SucceedEvaluation(id, c, votes, score) =>
      if !IsRunning(db, call) || !JudgmentRowsOk(votes, QuestionIds(Rows(db.questions, c))) || !PointsRowOk(score) then None
      else Some(SetEvaluationStatus(db.(judgments := db.judgments[id := votes]), id, Succeeded, Some(PointsOf(score))))
    case FailEvaluation(id, _, d) =>
      if !IsRunning(db, call) || EvaluationEntity(id) in db.failures || !FailureRowOk(d) then None
      else Some(SetEvaluationStatus(db.(failures := db.failures[EvaluationEntity(id) := d]), id, Failed, None))
    case GetChecklist(_) => None
    case GetEvaluation(_) => None
  }

  // ---------------------------------------------------------------- the statements of a call

  /** How many statements a call runs. */
  function Slots(call: Call): nat {
    match call
    case CreateChecklist(_, _) => 1
    case CreateEvaluation(_, _) => 2
    case SucceedChecklist(_, _, _) => 2 + CHECKLIST_READS
    case FailChecklist(_, _) => 2 + CHECKLIST_READS
    case SucceedEvaluation(_, _, _, _) => CHECKLIST_READS + 2 + EVALUATION_READS
    case FailEvaluation(_, _, _) => 2 + EVALUATION_READS
    case GetChecklist(_) => CHECKLIST_READS
    case GetEvaluation(_) => EVALUATION_READS
  }

  /** The statement of a terminal call that locks its row; the next one commits if the row was running. */
  function LockSlot(call: Call): nat
    requires call.Terminal()
  {
    if call.SucceedEvaluation? then CHECKLIST_READS else 0
  }

  /** The votes aggregate over the checklist that was read, and to the score that was sent. */
  ghost predicate ScoreMatches(call: Call, read: Reply)
    requires call.SucceedEvaluation?
  {
    && read.GotChecklist?
    && Accepted(read.checklist.content.questions, call.votes, read.checklist.evaluationRuns)
    && call.score == Aggregate(read.checklist.content.questions, call.votes, read.checklist.evaluationRuns).score
  }

  /** The error code of content that is not valid: that of the first list in order that is not. */
  ghost function ContentCode(c: Content, limits: ChecklistLimits): ErrorCode {
    if !DimensionsOk(c.dimensions, limits) then InvalidDimensionAnalysis
    else if !CandidatesOk(c.dimensions, c.candidates, limits) then InvalidQuestionGeneration
    else if !WeightsOk(c.candidates, c.weights, limits) then InvalidWeights
    else InvalidFinalChecklist
  }

  /** Whether a rejected call is rejected for what a model said; invalid limits, records and numbers of runs are plain errors.
      read is what a call that recomputes a score has read. */
  predicate RejectsOutput(call: Call, read: Reply)
    requires call.Terminal()
  {
    match call
    case SucceedChecklist(_, _, limits) => limits.Valid()
    case SucceedEvaluation(_, _, _, _) =>
      read.GotChecklist? && read.checklist.evaluationRuns > 0 && read.checklist.evaluationRuns % 2 != 0
    case _ => false
  }

  /** The error code of a call that is rejected for what a model said. */
  ghost function RefusalCode(call: Call, read: Reply): ErrorCode
    requires call.Terminal() && RejectsOutput(call, read)
  {
    match call
    case SucceedChecklist(_, c, limits) => ContentCode(c, limits)
    case SucceedEvaluation(_, _, votes, _) =>
      var qs, runs := read.checklist.content.questions, read.checklist.evaluationRuns;
      if Accepted(qs, votes, runs) then InvalidJudgments else VotesCode(qs, votes, runs)
  }

  /** What a call that recomputes a score has read by the time it locks. */
  ghost function ReadBefore(call: Call, seen: seq<Db>): Reply
    requires call.Terminal() && |seen| >= LockSlot(call)
  {
    if call.SucceedEvaluation? then ReadChecklist(seen[..CHECKLIST_READS], call.checklistID) else NotFound
  }

  /** e is the error of a rejected call: its validation's own. */
  ghost predicate RejectedWith(call: Call, read: Reply, e: ErrorValue)
    requires call.Terminal()
  {
    if RejectsOutput(call, read) then e.CoreSemanticError? && e.semantic.code == RefusalCode(call, read) else e == OtherError
  }

  /** The checks a call passes before it touches the row it wants to change. */
  ghost predicate Validated(call: Call, seen: seq<Db>)
    requires call.Terminal() && |seen| >= LockSlot(call)
  {
    match call
    case SucceedChecklist(_, c, limits) => ContentArgsOk(c, limits)
    case FailChecklist(_, d) => DetailsOk(d)
    case FailEvaluation(_, _, d) => DetailsOk(d)
    case SucceedEvaluation(_, c, _, _) => ScoreMatches(call, ReadChecklist(seen[..CHECKLIST_READS], c))
  }

  ghost predicate WantsLock(call: Call, seen: seq<Db>) {
    call.Terminal() && |seen| == LockSlot(call) && Validated(call, seen)
  }

  /** The next statement commits the call's transaction. */
  ghost predicate WantsWrite(call: Call, seen: seq<Db>) {
    match call
    case CreateChecklist(_, runs) => |seen| == 0 && ValidEvaluationRuns(runs, runs)
    case CreateEvaluation(_, c) => |seen| == 1 && c in seen[0].checklists && seen[0].checklists[c].status == Succeeded
    case GetChecklist(_) => false
    case GetEvaluation(_) => false
    case _ => |seen| == LockSlot(call) + 1 && Validated(call, seen) && IsRunning(seen[LockSlot(call)], call)
  }

  // ---------------------------------------------------------------- replies

  ghost function ReplyOfWrite(call: Call, db: Db): Reply {
    if Effect(call, db).Some? then Acked else SqlFailure
  }

  function Agree(same: bool): Reply {
    if same then Acked else Conflict
  }

  /** How many statements the comparison of a terminal call runs. */
  function CompareReads(call: Call): nat
    requires call.Terminal()
  {
    if call.Entity().ChecklistEntity? then CHECKLIST_READS else EVALUATION_READS
  }

  predicate SameScore(e: Evaluation, score: ScoreResult) {
    e.points == Some(PointsOf(score)) && e.failedQuestionIDs == score.failedQuestionIDs
  }

  /** The compare functions: what a call answers when its row was no longer running, from what it reads then. */
  ghost function Judge(call: Call, read: Reply): Reply
    requires call.Terminal()
  {
    match read
    case GotChecklist(c) =>
      if call.SucceedChecklist? then Agree(c.status == Succeeded && c.content == call.content)
      else Agree(call.FailChecklist? && c.status == Failed && c.failure.Some? && c.failure.value.Equal(call.details))
    case GotEvaluation(e) =>
      if call.SucceedEvaluation? then
        Agree(e.checklistID == call.checklistID && e.status == Succeeded
              && IndexedEqual(e.runJudgments, call.votes) && SameScore(e, call.score))
      else
        Agree(call.FailEvaluation? && e.checklistID == call.checklistID && e.status == Failed
              && e.failure.Some? && e.failure.value.Equal(call.details))
    case _ => read
  }

  ghost function Compare(call: Call, seen: seq<Db>): Reply
    requires call.Terminal()
    requires |seen| == CompareReads(call)
  {
    Judge(call, if call.Entity().ChecklistEntity? then ReadChecklist(seen, call.id) else ReadEvaluation(seen, call.id))
  }

  /** The reply of a call, given what each of its statements saw. */
  ghost function ReplyTo(call: Call, seen: seq<Db>): Reply
    requires |seen| == Slots(call)
  {
    match call
    case CreateChecklist(_, runs) => if !ValidEvaluationRuns(runs, runs) then Rejected else ReplyOfWrite(call, seen[0])
    case CreateEvaluation(_, c) =>
      if c !in seen[0].checklists then NotFound
      else if seen[0].checklists[c].status != Succeeded then Conflict
      else ReplyOfWrite(call, seen[1])
    case GetChecklist(id) => ReadChecklist(seen, id)
    case GetEvaluation(id) => ReadEvaluation(seen, id)
    case SucceedEvaluation(_, c, _, _) =>
      var read := ReadChecklist(seen[..CHECKLIST_READS], c);
      if !read.GotChecklist? then read else ReplyToTerminal(call, seen)
    case _ => ReplyToTerminal(call, seen)
  }

  /** The decisions of a terminal call: validate, lock, then either write or compare. */
  ghost function Outcome(call: Call, validated: bool, atLock: Db, atWrite: Db, compared: Reply): Reply
    requires call.Terminal()
  {
    if !validated then Rejected
    else if !RowExists(atLock, call) then NotFound
    else if IsRunning(atLock, call) then ReplyOfWrite(call, atWrite)
    else compared
  }

  ghost function ReplyToTerminal(call: Call, seen: seq<Db>): Reply
    requires call.Terminal() && |seen| == Slots(call)
  {
    var lock := LockSlot(call);
    Outcome(call, Validated(call, seen), seen[lock], seen[lock + 1], Compare(call, seen[lock + 2..]))
  }

  /** The same call with nothing else going on: every statement sees the same database. */
  function Constant<T>(db: T, n: nat): (seen: seq<T>)
    ensures |seen| == n && forall i | 0 <= i < n :: seen[i] == db
  {
    seq(n, _ => db)
  }

  lemma ConstantSlices<T>(db: T, n: nat, k: nat)
    requires k <= n
    ensures Constant(db, n)[..k] == Constant(db, k) && Constant(db, n)[k..] == Constant(db, n - k)
  {
  }

  ghost function AtomicReply(call: Call, db: Db): Reply {
    ReplyTo(call, Constant(db, Slots(call)))
  }

  /** Whether, run on its own, the call gets to commit. */
  ghost predicate AtomicWrites(call: Call, db: Db) {
    match call
    case CreateChecklist(_, _) => WantsWrite(call, [])
    case CreateEvaluation(_, _) => WantsWrite(call, [db])
    case GetChecklist(_) => false
    case GetEvaluation(_) => false
    case _ => WantsWrite(call, Constant(db, LockSlot(call) + 1))
  }

  ghost function AtomicResult(call: Call, db: Db): Db {
    if AtomicWrites(call, db) && Effect(call, db).Some? then Effect(call, db).value else db
  }
}
