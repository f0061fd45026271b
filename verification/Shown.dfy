/** What a GET shows, in terms of the tables alone. */
module Shown {
  import opened Common
  import opened Seqs
  import opened Lookup
  import opened Types
  import opened Validate
  import opened Score
  import opened Aggregation
  import opened Database
  import opened Calls
  import opened Reads
  import opened Repeats

  // ---------------------------------------------------------------- checklists

  /** The rows of a succeeded checklist: each list is that of its table, in ordinal order, the weights in that of their
      candidates. */
  ghost predicate ShowsContent(c: Content, db: Db, id: string) {
    && Permutation(c.dimensions, Rows(db.dimensions, id)) && Permutation(c.candidates, Rows(db.candidates, id))
    && Permutation(c.weights, Rows(db.weights, id)) && Permutation(c.questions, Rows(db.questions, id))
    && (forall i, j | 0 <= i < j < |c.dimensions| :: c.dimensions[i].ordinal < c.dimensions[j].ordinal)
    && (forall i, j | 0 <= i < j < |c.candidates| :: c.candidates[i].ordinal < c.candidates[j].ordinal)
    && (forall i, j | 0 <= i < j < |c.questions| :: c.questions[i].ordinal < c.questions[j].ordinal)
    && forall i, j, k, m | 0 <= i < j < |c.weights| && 0 <= k < |c.candidates| && 0 <= m < |c.candidates|
         && c.candidates[k].id == c.weights[i].candidateQuestionID && c.candidates[m].id == c.weights[j].candidateQuestionID :: k < m
  }

  /** The row of the checklist with its status and number of runs, the failure record exactly if it failed, and its content
      exactly if it succeeded. */
  ghost predicate ShowsChecklist(r: Response, db: Db, id: string) {
    if id !in db.checklists then r == ErrorStatus(404)
    else
      var row := db.checklists[id];
      && r.ChecklistShown? && r.id == id && r.status == row.status && r.evaluationRuns == row.evaluationRuns
      && (row.status == Failed ==> ChecklistEntity(id) in db.failures && r.failure == Some(db.failures[ChecklistEntity(id)]))
      && (row.status != Failed ==> r.failure == None)
      && (r.content.Some? <==> row.status == Succeeded)
      && (row.status == Succeeded ==> ShowsContent(r.content.value, db, id))
  }

  lemma {:induction false} StrictlySorted<T(!new)>(rows: seq<T>, le: (T, T) -> bool, ordinal: T -> int)
    requires (forall a, b :: le(a, b) <==> ordinal(a) <= ordinal(b)) && UniqueBy(rows, ordinal)
    ensures forall i, j | 0 <= i < j < |SortBy(rows, le)| :: ordinal(SortBy(rows, le)[i]) < ordinal(SortBy(rows, le)[j])
  {
    var sorted := SortBy(rows, le);
    SortBySorted(rows, le);
    PermutationKeepsUnique(rows, sorted, ordinal);
    forall i, j | 0 <= i < j < |sorted| ensures ordinal(sorted[i]) < ordinal(sorted[j]) {
      assert le(sorted[i], sorted[j]) && ordinal(sorted[i]) != ordinal(sorted[j]);
    }
  }

  lemma {:induction false} RowsInOrder(db: Db, id: string)
    requires ContentRowsOk(Rows(db.dimensions, id), Rows(db.candidates, id), Rows(db.weights, id), Rows(db.questions, id))
    ensures var ds := QueryDimensions(db, id); forall i, j | 0 <= i < j < |ds| :: ds[i].ordinal < ds[j].ordinal
    ensures var cs := QueryCandidates(db, id); forall i, j | 0 <= i < j < |cs| :: cs[i].ordinal < cs[j].ordinal
    ensures var qs := QueryQuestions(db, id); forall i, j | 0 <= i < j < |qs| :: qs[i].ordinal < qs[j].ordinal
  {
    StrictlySorted(Rows(db.dimensions, id), DimensionLe, (d: Dimension) => d.ordinal);
    StrictlySorted(Rows(db.candidates, id), CandidateLe, (c: CandidateQuestion) => c.ordinal);
    StrictlySorted(Rows(db.questions, id), QuestionLe, (q: FinalQuestion) => q.ordinal);
  }

  /** The ordinal a weight is sorted by is that of its candidate. */
  lemma {:induction false} JoinedWith(cs: seq<CandidateQuestion>, c: CandidateQuestion, w: Weight)
    requires UniqueBy(cs, CandidateKey) && c in cs && c.id == w.candidateQuestionID
    ensures JoinedOrdinal(cs, w) == c.ordinal
  {
    FindUnique(cs, CandidateKey, c);
  }

  lemma {:induction false} SortedWeights(db: Db, id: string, i: nat, j: nat)
    requires WeightRowsOk(Rows(db.weights, id), CandidateIds(Rows(db.candidates, id))) && i < j < |QueryWeights(db, id)|
    ensures var rows, ws := Rows(db.candidates, id), QueryWeights(db, id);
            JoinedOrdinal(rows, ws[i]) <= JoinedOrdinal(rows, ws[j]) && ws[i].candidateQuestionID != ws[j].candidateQuestionID
  {
    var rows, ws := Rows(db.candidates, id), QueryWeights(db, id);
    ReadBackSameRows(db, id);
    SortBySorted(JoinWeights(Rows(db.weights, id), rows), WeightOrder(rows));
    assert WeightOrder(rows)(ws[i], ws[j]);
    DistinctWeights(Rows(db.weights, id), ws, i, j);
  }

  lemma {:induction false} DistinctWeights(rows: seq<Weight>, ws: seq<Weight>, i: nat, j: nat)
    requires UniqueWeights(rows) && Permutation(rows, ws) && i < j < |ws|
    ensures ws[i].candidateQuestionID != ws[j].candidateQuestionID
  {
    var key := (w: Weight) => w.candidateQuestionID;
    assert UniqueBy(rows, key);
    PermutationKeepsUnique(rows, ws, key);
    assert key(ws[i]) != key(ws[j]);
  }

  lemma {:induction false} EarlierCandidate(rows: seq<CandidateQuestion>, cs: seq<CandidateQuestion>, v: Weight, w: Weight, k: nat, m: nat)
    requires Permutation(cs, rows) && (forall i, j | 0 <= i < j < |rows| :: rows[i].id != rows[j].id)
    requires forall i, j | 0 <= i < j < |cs| :: cs[i].ordinal < cs[j].ordinal
    requires JoinedOrdinal(rows, v) <= JoinedOrdinal(rows, w) && v.candidateQuestionID != w.candidateQuestionID
    requires k < |cs| && m < |cs| && cs[k].id == v.candidateQuestionID && cs[m].id == w.candidateQuestionID
    ensures k < m
  {
    PermutationBasics(cs, rows);
    assert UniqueBy(rows, CandidateKey);
    JoinedWith(rows, cs[k], v);
    JoinedWith(rows, cs[m], w);
  }

  lemma {:induction false} WeightsInOrder(db: Db, id: string, i: nat, j: nat, k: nat, m: nat)
    requires ContentRowsOk(Rows(db.dimensions, id), Rows(db.candidates, id), Rows(db.weights, id), Rows(db.questions, id))
    requires i < j < |QueryWeights(db, id)| && k < |QueryCandidates(db, id)| && m < |QueryCandidates(db, id)|
    requires QueryCandidates(db, id)[k].id == QueryWeights(db, id)[i].candidateQuestionID
    requires QueryCandidates(db, id)[m].id == QueryWeights(db, id)[j].candidateQuestionID
    ensures k < m
  {
    RowsInOrder(db, id);
    SortedWeights(db, id, i, j);
    EarlierCandidate(Rows(db.candidates, id), QueryCandidates(db, id), QueryWeights(db, id)[i], QueryWeights(db, id)[j], k, m);
  }

  lemma {:induction false} ContentIsShown(db: Db, id: string)
    requires ContentRowsOk(Rows(db.dimensions, id), Rows(db.candidates, id), Rows(db.weights, id), Rows(db.questions, id))
    ensures ShowsContent(Content(QueryDimensions(db, id), QueryCandidates(db, id), QueryWeights(db, id), QueryQuestions(db, id)), db, id)
  {
    ReadBackSameRows(db, id);
    RowsInOrder(db, id);
    WeightsFollowCandidates(db, id);
  }

  lemma {:induction false} WeightsFollowCandidates(db: Db, id: string)
    requires ContentRowsOk(Rows(db.dimensions, id), Rows(db.candidates, id), Rows(db.weights, id), Rows(db.questions, id))
    ensures var cs, ws := QueryCandidates(db, id), QueryWeights(db, id);
            forall i, j, k, m | 0 <= i < j < |ws| && 0 <= k < |cs| && 0 <= m < |cs|
              && cs[k].id == ws[i].candidateQuestionID && cs[m].id == ws[j].candidateQuestionID :: k < m
  {
    var cs, ws := QueryCandidates(db, id), QueryWeights(db, id);
    forall i, j, k, m | 0 <= i < j < |ws| && 0 <= k < |cs| && 0 <= m < |cs|
        && cs[k].id == ws[i].candidateQuestionID && cs[m].id == ws[j].candidateQuestionID
      ensures k < m
    {
      WeightsInOrder(db, id, i, j, k, m);
    }
  }

  /** A GET of a checklist, on its own. */
  lemma {:induction false} ChecklistIsShown(db: Db, id: string)
    requires Inv(db)
    ensures ShowsChecklist(Respond(ReadChecklist(Constant(db, CHECKLIST_READS), id)), db, id)
  {
    if id in db.checklists {
      assert ChecklistInv(db, id);
      if db.checklists[id].status == Succeeded {
        ContentIsShown(db, id);
      }
    }
  }

  // ---------------------------------------------------------------- evaluations

  /** The points of a row over its checklist's questions, and the questions that failed. */
  ghost predicate PointsFit(p: Points, questions: nat, failed: seq<string>) {
    p.total == questions > 0 && p.satisfied + |failed| == questions && p.rate == p.satisfied as real / questions as real
  }

  /** A succeeded evaluation: its points, as many as its checklist has questions, and one judgment for each of them in ordinal
      order, made of the stored votes on it; the failed ones are those judged with no. */
  ghost predicate ShowsResult(points: Points, failed: seq<string>, judgments: seq<AggregatedJudgment>, db: Db, id: string)
    requires id in db.evaluations && db.evaluations[id].checklistID in db.checklists
  {
    var c := db.evaluations[id].checklistID;
    var qs, runs := QueryQuestions(db, c), db.checklists[c].evaluationRuns;
    && db.evaluations[id].points == Some(points) && PointsFit(points, |Rows(db.questions, c)|, failed)
    && RunsAreVotes(judgments, qs, Rows(db.judgments, id), runs) && AnswersAreMajorities(judgments, runs)
    && forall i | 0 <= i < |qs| :: qs[i].id in failed <==> judgments[i].answer == "no"
  }

  /** The row of the evaluation with its checklist and status, the failure record exactly if it failed, and points, failed
      questions and judgments exactly if it succeeded. */
  ghost predicate ShowsEvaluation(r: Response, db: Db, id: string) {
    if id !in db.evaluations then r == ErrorStatus(404)
    else
      var row := db.evaluations[id];
      && r.EvaluationShown? && r.id == id && r.checklistID == row.checklistID && r.status == row.status
      && (row.status == Failed ==> EvaluationEntity(id) in db.failures && r.failure == Some(db.failures[EvaluationEntity(id)]))
      && (row.status != Failed ==> r.failure == None)
      && (row.status == Succeeded ==>
            && row.checklistID in db.checklists && r.points.Some? && r.failedQuestionIDs.Some?
            && ShowsResult(r.points.value, r.failedQuestionIDs.value, r.judgments, db, id))
      && (row.status != Succeeded ==> r.points == None && r.failedQuestionIDs == None && r.judgments == [])
  }

  lemma {:induction false} StoredResultFits(db: Db, id: string)
    requires id in db.evaluations && db.evaluations[id].checklistID in db.checklists && Scored(db, id)
    ensures db.evaluations[id].points.Some?
    ensures ShowsResult(db.evaluations[id].points.value, StoredResult(db, id).score.failedQuestionIDs, StoredResult(db, id).judgments, db, id)
  {
    var c := db.evaluations[id].checklistID;
    AggregationIsRight(QueryQuestions(db, c), Rows(db.judgments, id), db.checklists[c].evaluationRuns);
    PermutationBasics(QueryQuestions(db, c), Rows(db.questions, c));
  }

  lemma {:induction false} SucceededIsShown(db: Db, id: string)
    requires Inv(db) && id in db.evaluations && db.evaluations[id].status == Succeeded
    ensures ShowsEvaluation(Respond(ReadEvaluation(Constant(db, EVALUATION_READS), id)), db, id)
  {
    SucceededIsScored(db, id);
    ReloadScored(db, id);
    StoredResultFits(db, id);
    ResultIsShown(ReadEvaluation(Constant(db, EVALUATION_READS), id).evaluation, db, id);
  }

  lemma ResultIsShown(e: Evaluation, db: Db, id: string)
    requires id in db.evaluations && db.evaluations[id].checklistID in db.checklists && db.evaluations[id].status == Succeeded
    requires e.id == id && e.checklistID == db.evaluations[id].checklistID && e.status == Succeeded
    requires db.evaluations[id].points.Some? && e.points == db.evaluations[id].points
    requires ShowsResult(e.points.value, e.failedQuestionIDs, e.judgments, db, id)
    ensures ShowsEvaluation(Respond(GotEvaluation(e)), db, id)
  {
  }

  lemma UnfinishedIsShown(seen: seq<Db>, id: string)
    requires |seen| == EVALUATION_READS && seen[0] == seen[1] && id in seen[0].evaluations && EvaluationInv(seen[0], id)
    requires seen[0].evaluations[id].status != Succeeded
    ensures ShowsEvaluation(Respond(ReadEvaluation(seen, id)), seen[0], id)
  {
  }

  /** A GET of an evaluation, on its own. */
  lemma {:induction false} EvaluationIsShown(db: Db, id: string)
    requires Inv(db)
    ensures ShowsEvaluation(Respond(ReadEvaluation(Constant(db, EVALUATION_READS), id)), db, id)
  {
    if id in db.evaluations {
      if db.evaluations[id].status == Succeeded {
        SucceededIsShown(db, id);
      } else {
        UnfinishedIsShown(Constant(db, EVALUATION_READS), id);
      }
    }
  }
}
