/** Scoring: one list of judgments, or the strict majority over an odd number of runs. */
module Score {
  import opened Common
  import opened Text
  import opened Seqs
  import opened Lookup
  import opened Types
  import opened Validate

  function JudgmentKey(j: Judgment): string { j.questionID }

  function VoteKey(v: RunJudgment): (int, string) { (v.runIndex, v.questionID) }

  // ---------------------------------------------------------------- one list of judgments

  function AnsweredYes(js: seq<Judgment>, id: string): bool {
    var j := Find(js, JudgmentKey, id);
    j.Some? && j.value.answer == ANSWER_YES
  }

  function Satisfied(qs: seq<FinalQuestion>, js: seq<Judgment>): nat {
    if qs == [] then 0
    else Satisfied(qs[..|qs| - 1], js) + if AnsweredYes(js, qs[|qs| - 1].id) then 1 else 0
  }

  function FailedIds(qs: seq<FinalQuestion>, js: seq<Judgment>): seq<string> {
    if qs == [] then []
    else FailedIds(qs[..|qs| - 1], js) + if AnsweredYes(js, qs[|qs| - 1].id) then [] else [qs[|qs| - 1].id]
  }

  function PassRate(satisfied: nat, total: nat): real
    requires total > 0
  {
    satisfied as real / total as real
  }

  function ScoreOf(qs: seq<FinalQuestion>, js: seq<Judgment>): ScoreResult
    requires qs != []
  {
    ScoreResult(Satisfied(qs, js), |qs|, PassRate(Satisfied(qs, js), |qs|), FailedIds(qs, js))
  }

  method ScoreChecklist(qs: seq<FinalQuestion>, js: seq<Judgment>) returns (r: Result<ScoreResult, SemanticError>)
    ensures r.Success? <==> JudgmentsOk(qs, js)
    ensures r.Success? ==> r.value == ScoreOf(qs, js)
    ensures r.Failure? ==> r.error.code ==
                           if JudgmentShapeOk(js) && !JudgeableQuestions(qs) then InvalidFinalChecklist else InvalidJudgments
  {
    var err := ValidateJudgments(qs, js);
    if err.Some? {
      return Failure(err.value);
    }
    var judgmentByID := IndexBy(js, JudgmentKey);
    var satisfied, failed := 0, [];
    for i := 0 to |qs|
      invariant satisfied == Satisfied(qs[..i], js) && failed == FailedIds(qs[..i], js)
    {
      assert qs[..i + 1][..i] == qs[..i];
      if qs[i].id in judgmentByID && judgmentByID[qs[i].id].answer == ANSWER_YES {
        satisfied := satisfied + 1;
        continue;
      }
      failed := failed + [qs[i].id];
    }
    assert qs[..|qs|] == qs;
    return Success(ScoreResult(satisfied, |qs|, PassRate(satisfied, |qs|), failed));
  }

  /** Every question is either satisfied or failed, and the pass rate is a rate. */
  lemma {:induction false} ScoreConserves(qs: seq<FinalQuestion>, js: seq<Judgment>)
    requires qs != []
    ensures Satisfied(qs, js) + |FailedIds(qs, js)| == |qs|
    ensures 0.0 <= ScoreOf(qs, js).checklistPassRate <= 1.0
  {
    Split(qs, js);
    RateInRange(Satisfied(qs, js), |qs|);
  }

  lemma {:induction false} Split(qs: seq<FinalQuestion>, js: seq<Judgment>)
    ensures Satisfied(qs, js) + |FailedIds(qs, js)| == |qs|
  {
    if qs != [] {
      Split(qs[..|qs| - 1], js);
    }
  }

  /** The rate is the share of the satisfied questions. */
  lemma {:induction false} RateOfScore(qs: seq<FinalQuestion>, js: seq<Judgment>)
    requires qs != []
    ensures ScoreOf(qs, js).checklistPassRate * |qs| as real == ScoreOf(qs, js).satisfiedPoints as real
  {
    RateTimesTotal(Satisfied(qs, js), |qs|);
  }

  lemma RateTimesTotal(satisfied: nat, total: nat)
    requires total > 0
    ensures PassRate(satisfied, total) * total as real == satisfied as real
  {
    RatioTimes(satisfied as real, total as real);
  }

  lemma RatioTimes(s: real, t: real)
    requires t > 0.0
    ensures s / t * t == s
  {
  }

  lemma RateInRange(satisfied: nat, total: nat)
    requires satisfied <= total && total > 0
    ensures 0.0 <= PassRate(satisfied, total) <= 1.0
  {
    RatioInRange(satisfied as real, total as real);
  }

  lemma RatioInRange(s: real, t: real)
    requires 0.0 <= s <= t && t > 0.0
    ensures 0.0 <= s / t <= 1.0
  {
    var q := s / t;
    assert q * t == s;
    if q > 1.0 {
      LargerFactor(q, 1.0, t);
    } else if q < 0.0 {
      LargerFactor(0.0, q, t);
    }
  }

  lemma LargerFactor(a: real, b: real, t: real)
    requires a > b && t > 0.0
    ensures a * t > b * t
  {
    assert (a - b) * t > 0.0;
  }

  /** The positions of the failed ids in the checklist. */
  ghost function FailedAt(qs: seq<FinalQuestion>, js: seq<Judgment>): (at: seq<nat>)
    ensures forall k | 0 <= k < |at| :: at[k] < |qs|
  {
    if qs == [] then []
    else FailedAt(qs[..|qs| - 1], js) + if AnsweredYes(js, qs[|qs| - 1].id) then [] else [|qs| - 1]
  }

  lemma {:induction false} FailedAtIds(qs: seq<FinalQuestion>, js: seq<Judgment>)
    ensures var at := FailedAt(qs, js);
            |at| == |FailedIds(qs, js)| && forall k | 0 <= k < |at| :: FailedIds(qs, js)[k] == qs[at[k]].id
  {
    if qs != [] {
      FailedAtIds(qs[..|qs| - 1], js);
    }
  }

  ghost predicate Increasing(at: seq<nat>) {
    forall k, m | 0 <= k < m < |at| :: at[k] < at[m]
  }

  lemma {:induction false} FailedAtIncreases(qs: seq<FinalQuestion>, js: seq<Judgment>)
    ensures Increasing(FailedAt(qs, js))
  {
    if qs != [] {
      var n := |qs| - 1;
      var before := FailedAt(qs[..n], js);
      FailedAtIncreases(qs[..n], js);
      assert Increasing(before + [n]);
    }
  }

  lemma {:induction false} FailedAtHas(qs: seq<FinalQuestion>, js: seq<Judgment>, i: nat)
    requires i < |qs|
    ensures i in FailedAt(qs, js) <==> !AnsweredYes(js, qs[i].id)
  {
    var n := |qs| - 1;
    var before := FailedAt(qs[..n], js);
    if i < n {
      FailedAtHas(qs[..n], js, i);
      assert i in before <==> i in FailedAt(qs, js);
    } else {
      assert i !in before;
    }
  }

  /** The failed ids are the ids of the questions without a yes, in question order. */
  lemma {:induction false} FailedIdsExact(qs: seq<FinalQuestion>, js: seq<Judgment>)
    ensures var at := FailedAt(qs, js);
            && |at| == |FailedIds(qs, js)|
            && (forall k | 0 <= k < |at| :: FailedIds(qs, js)[k] == qs[at[k]].id)
            && Increasing(at)
            && (forall i | 0 <= i < |qs| :: i in at <==> !AnsweredYes(js, qs[i].id))
  {
    FailedAtIds(qs, js);
    FailedAtIncreases(qs, js);
    forall i | 0 <= i < |qs| ensures i in FailedAt(qs, js) <==> !AnsweredYes(js, qs[i].id) {
      FailedAtHas(qs, js, i);
    }
  }

  /** Of judgments on each question, exactly those answered with no count as failed. */
  lemma {:induction false} AnsweredNo(qs: seq<FinalQuestion>, js: seq<Judgment>, i: nat)
    requires JudgmentsOk(qs, js) && i < |qs|
    ensures !AnsweredYes(js, qs[i].id) <==> exists j :: j in js && j.questionID == qs[i].id && j.answer == "no"
  {
    assert qs[i].id in QuestionIds(qs);
    var k :| 0 <= k < |js| && js[k].questionID == qs[i].id;
    assert UniqueBy(js, JudgmentKey);
    FindUnique(js, JudgmentKey, js[k]);
    assert JudgmentOk(js[k]);
    forall j | j in js && j.questionID == qs[i].id ensures j == js[k] {
      FindUnique(js, JudgmentKey, j);
    }
  }

  lemma {:induction false} FailedIdsAre(qs: seq<FinalQuestion>, js: seq<Judgment>, i: nat)
    requires UniqueQuestions(qs) && i < |qs|
    ensures qs[i].id in FailedIds(qs, js) <==> !AnsweredYes(js, qs[i].id)
  {
    FailedIdsExact(qs, js);
    var at := FailedAt(qs, js);
    if i in at {
      var k :| 0 <= k < |at| && at[k] == i;
      assert FailedIds(qs, js)[k] == qs[i].id;
    }
    if qs[i].id in FailedIds(qs, js) {
      var k :| 0 <= k < |at| && FailedIds(qs, js)[k] == qs[i].id;
      assert at[k] in at;
    }
  }

  /** The score of valid judgments counts every question once, and fails exactly those answered with no. */
  lemma {:induction false} ScoreIsRight(qs: seq<FinalQuestion>, js: seq<Judgment>)
    requires JudgmentsOk(qs, js)
    ensures qs != []
    ensures var s := ScoreOf(qs, js);
            && s.totalPossiblePoints == |qs| && s.satisfiedPoints + |s.failedQuestionIDs| == |qs|
            && s.checklistPassRate == s.satisfiedPoints as real / |qs| as real
            && forall i | 0 <= i < |qs| ::
                 qs[i].id in s.failedQuestionIDs <==> exists j :: j in js && j.questionID == qs[i].id && j.answer == "no"
  {
    ScoreConserves(qs, js);
    forall i | 0 <= i < |qs|
      ensures qs[i].id in FailedIds(qs, js) <==> exists j :: j in js && j.questionID == qs[i].id && j.answer == "no"
    {
      AnsweredNo(qs, js, i);
      FailedIdsAre(qs, js, i);
    }
  }

  // ---------------------------------------------------------------- several runs

  ghost predicate UniqueVotes(vs: seq<RunJudgment>) {
    forall i, j | 0 <= i < j < |vs| :: VoteKey(vs[i]) != VoteKey(vs[j])
  }

  predicate VoteOk(v: RunJudgment, runs: int, ids: set<string>) {
    && 1 <= v.runIndex <= runs
    && v.questionID in ids
    && !Blank(v.evidence)
    && (v.answer == ANSWER_YES || v.answer == ANSWER_NO)
  }

  ghost predicate HasVote(vs: seq<RunJudgment>, run: int, id: string) {
    exists i :: 0 <= i < |vs| && VoteKey(vs[i]) == (run, id)
  }

  /** Every run votes on every question exactly once, and there is nothing else. */
  ghost predicate Accepted(qs: seq<FinalQuestion>, vs: seq<RunJudgment>, runs: int) {
    && runs > 0 && runs % 2 != 0
    && JudgeableQuestions(qs)
    && UniqueVotes(vs)
    && (forall i | 0 <= i < |vs| :: VoteOk(vs[i], runs, QuestionIds(qs)))
    && forall run, id | 1 <= run <= runs && id in QuestionIds(qs) :: HasVote(vs, run, id)
  }

  /** The vote of a run on a question; Go's zero judgment when there is none. */
  function Vote(vs: seq<RunJudgment>, run: int, id: string): Judgment {
    match Find(vs, VoteKey, (run, id))
    case Some(v) => Judgment(v.questionID, v.evidence, v.answer)
    case None => Judgment("", "", "")
  }

  function VotedRun(vs: seq<RunJudgment>, run: int, id: string): JudgmentRun {
    var j := Vote(vs, run, id);
    JudgmentRun(run, j.evidence, j.answer)
  }

  /** The number of yes votes on a question in the first n runs. */
  function YesCount(vs: seq<RunJudgment>, id: string, n: nat): (c: nat)
    ensures c <= n
  {
    if n == 0 then 0
    else YesCount(vs, id, n - 1) + if Vote(vs, n, id).answer == ANSWER_YES then 1 else 0
  }

  function NoCount(vs: seq<RunJudgment>, id: string, n: nat): nat {
    if n == 0 then 0
    else NoCount(vs, id, n - 1) + if Vote(vs, n, id).answer == ANSWER_NO then 1 else 0
  }

  function Majority(vs: seq<RunJudgment>, id: string, runs: nat): string {
    if YesCount(vs, id, runs) > runs / 2 then ANSWER_YES else ANSWER_NO
  }

  function RunsOf(vs: seq<RunJudgment>, id: string, runs: nat): seq<JudgmentRun> {
    seq(runs, r requires 0 <= r < runs => VotedRun(vs, r + 1, id))
  }

  function Aggregated(qs: seq<FinalQuestion>, vs: seq<RunJudgment>, runs: nat): (a: seq<AggregatedJudgment>)
    ensures |a| == |qs|
  {
    seq(|qs|, i requires 0 <= i < |qs| =>
      AggregatedJudgment(qs[i].id, RunsOf(vs, qs[i].id, runs), Majority(vs, qs[i].id, runs)))
  }

  /** The single list of judgments the majorities stand for. */
  function Derived(qs: seq<FinalQuestion>, vs: seq<RunJudgment>, runs: nat): (js: seq<Judgment>)
    ensures |js| == |qs|
  {
    seq(|qs|, i requires 0 <= i < |qs| =>
      Judgment(qs[i].id, "derived from repeated judgments", Majority(vs, qs[i].id, runs)))
  }

  function Aggregate(qs: seq<FinalQuestion>, vs: seq<RunJudgment>, runs: nat): AggregationResult
    requires qs != []
  {
    AggregationResult(Aggregated(qs, vs, runs), ScoreOf(qs, Derived(qs, vs, runs)))
  }

  // ---------------------------------------------------------------- buckets

  /** The judgments of one run, in list order. */
  function Bucket(vs: seq<RunJudgment>, run: int): seq<Judgment> {
    if vs == [] then []
    else
      var v := vs[|vs| - 1];
      Bucket(vs[..|vs| - 1], run) + if v.runIndex == run then [Judgment(v.questionID, v.evidence, v.answer)] else []
  }

  lemma {:induction false} BucketContents(vs: seq<RunJudgment>, run: int, j: Judgment)
    ensures j in Bucket(vs, run) <==> RunJudgment(run, j.questionID, j.evidence, j.answer) in vs
  {
    if vs != [] {
      var n := |vs| - 1;
      BucketContents(vs[..n], run, j);
      assert vs == vs[..n] + [vs[n]];
    }
  }

  lemma {:induction false} BucketVote(vs: seq<RunJudgment>, run: int, id: string)
    ensures Vote(vs, run, id) ==
            var m := MapOf(Bucket(vs, run), JudgmentKey);
            if id in m then m[id] else Judgment("", "", "")
  {
    if vs != [] {
      var n := |vs| - 1;
      BucketVote(vs[..n], run, id);
      var before := Bucket(vs[..n], run);
      if vs[n].runIndex == run {
        assert Bucket(vs, run)[..|before|] == before;
      } else {
        assert Bucket(vs, run) == before;
      }
    }
  }

  lemma {:induction false} UniqueAppend<T, K>(s: seq<T>, x: T, key: T -> K)
    ensures UniqueBy(s + [x], key) <==> UniqueBy(s, key) && forall y | y in s :: key(y) != key(x)
  {
    var t := s + [x];
    if UniqueBy(t, key) {
      forall i, j | 0 <= i < j < |s| ensures key(s[i]) != key(s[j]) {
        assert key(t[i]) != key(t[j]);
      }
      forall y | y in s ensures key(y) != key(x) {
        var i :| 0 <= i < |s| && s[i] == y;
        assert key(t[i]) != key(t[|s|]);
      }
    }
  }

  lemma {:induction false} KeyInBucket(vs: seq<RunJudgment>, v: RunJudgment)
    ensures (forall y | y in vs :: VoteKey(y) != VoteKey(v)) <==>
            (forall y | y in Bucket(vs, v.runIndex) :: JudgmentKey(y) != v.questionID)
  {
    forall y | y in vs && VoteKey(y) == VoteKey(v)
      ensures Judgment(y.questionID, y.evidence, y.answer) in Bucket(vs, v.runIndex)
    {
      BucketContents(vs, v.runIndex, Judgment(y.questionID, y.evidence, y.answer));
    }
    forall y | y in Bucket(vs, v.runIndex)
      ensures RunJudgment(v.runIndex, y.questionID, y.evidence, y.answer) in vs
    {
      BucketContents(vs, v.runIndex, y);
    }
    if y :| y in vs && VoteKey(y) == VoteKey(v) {
      assert JudgmentKey(Judgment(y.questionID, y.evidence, y.answer)) == v.questionID;
    }
  }

  ghost predicate BucketsUnique(vs: seq<RunJudgment>) {
    forall run :: UniqueBy(Bucket(vs, run), JudgmentKey)
  }

  lemma {:induction false} BucketsUniqueAppend(vs: seq<RunJudgment>, v: RunJudgment)
    ensures BucketsUnique(vs + [v]) <==>
            BucketsUnique(vs) && forall y | y in Bucket(vs, v.runIndex) :: JudgmentKey(y) != v.questionID
  {
    var j := Judgment(v.questionID, v.evidence, v.answer);
    var t := vs + [v];
    assert t[..|t| - 1] == vs;
    UniqueAppend(Bucket(vs, v.runIndex), j, JudgmentKey);
    assert Bucket(t, v.runIndex) == Bucket(vs, v.runIndex) + [j];
    if BucketsUnique(t) {
      forall run ensures UniqueBy(Bucket(vs, run), JudgmentKey) {
        assert UniqueBy(Bucket(t, run), JudgmentKey);
        if run != v.runIndex {
          assert Bucket(t, run) == Bucket(vs, run);
        }
      }
    }
    if BucketsUnique(vs) && forall y | y in Bucket(vs, v.runIndex) :: JudgmentKey(y) != v.questionID {
      forall run ensures UniqueBy(Bucket(t, run), JudgmentKey) {
        assert UniqueBy(Bucket(vs, run), JudgmentKey);
        if run != v.runIndex {
          assert Bucket(t, run) == Bucket(vs, run);
        }
      }
    }
  }

  /** Votes are unique when, run by run, judgments are. */
  lemma {:induction false} UniqueByBucket(vs: seq<RunJudgment>)
    ensures UniqueBy(vs, VoteKey) <==> BucketsUnique(vs)
  {
    if vs != [] {
      var n := |vs| - 1;
      assert vs == vs[..n] + [vs[n]];
      UniqueByBucket(vs[..n]);
      UniqueAppend(vs[..n], vs[n], VoteKey);
      BucketsUniqueAppend(vs[..n], vs[n]);
      KeyInBucket(vs[..n], vs[n]);
    }
  }

  ghost predicate RunsInRange(vs: seq<RunJudgment>, runs: int) {
    forall i | 0 <= i < |vs| :: 1 <= vs[i].runIndex <= runs
  }

  ghost predicate BucketsOk(qs: seq<FinalQuestion>, vs: seq<RunJudgment>, runs: int) {
    forall run | 1 <= run <= runs :: JudgmentsOk(qs, Bucket(vs, run))
  }

  /** Validating the buckets one run at a time is validating the whole list of votes. */
  lemma {:induction false} AcceptedByBucket(qs: seq<FinalQuestion>, vs: seq<RunJudgment>, runs: int)
    requires runs > 0 && runs % 2 != 0 && RunsInRange(vs, runs)
    ensures Accepted(qs, vs, runs) <==> BucketsOk(qs, vs, runs)
  {
    if Accepted(qs, vs, runs) {
      forall run | 1 <= run <= runs ensures JudgmentsOk(qs, Bucket(vs, run)) {
        AcceptedBucketOk(qs, vs, runs, run);
      }
    }
    if BucketsOk(qs, vs, runs) {
      BucketsOkAccepted(qs, vs, runs);
    }
  }

  lemma {:induction false} AcceptedBucketOk(qs: seq<FinalQuestion>, vs: seq<RunJudgment>, runs: int, run: int)
    requires Accepted(qs, vs, runs) && 1 <= run <= runs
    ensures JudgmentsOk(qs, Bucket(vs, run))
  {
    var js := Bucket(vs, run);
    assert UniqueBy(vs, VoteKey);
    UniqueByBucket(vs);
    assert UniqueBy(js, JudgmentKey);
    assert UniqueJudgments(js) by {
      forall i, j | 0 <= i < j < |js| ensures js[i].questionID != js[j].questionID {
        assert JudgmentKey(js[i]) != JudgmentKey(js[j]);
      }
    }
    forall i | 0 <= i < |js| ensures JudgmentOk(js[i]) && js[i].questionID in QuestionIds(qs) {
      BucketContents(vs, run, js[i]);
      var k :| 0 <= k < |vs| && vs[k] == RunJudgment(run, js[i].questionID, js[i].evidence, js[i].answer);
      assert VoteOk(vs[k], runs, QuestionIds(qs));
    }
    forall id | id in QuestionIds(qs) ensures id in JudgedIds(js) {
      assert HasVote(vs, run, id);
      var k :| 0 <= k < |vs| && VoteKey(vs[k]) == (run, id);
      BucketContents(vs, run, Judgment(id, vs[k].evidence, vs[k].answer));
    }
    assert qs[0].id in QuestionIds(qs);
    assert qs[0].id in JudgedIds(js);
  }

  lemma {:induction false} BucketsOkAccepted(qs: seq<FinalQuestion>, vs: seq<RunJudgment>, runs: int)
    requires runs > 0 && runs % 2 != 0 && RunsInRange(vs, runs)
    requires BucketsOk(qs, vs, runs)
    ensures Accepted(qs, vs, runs)
  {
    assert JudgmentsOk(qs, Bucket(vs, 1));
    forall run ensures UniqueBy(Bucket(vs, run), JudgmentKey) {
      if 1 <= run <= runs {
        assert JudgmentsOk(qs, Bucket(vs, run));
      } else {
        OutOfRangeBucket(vs, runs, run);
      }
    }
    UniqueByBucket(vs);
    forall i | 0 <= i < |vs| ensures VoteOk(vs[i], runs, QuestionIds(qs)) {
      var run := vs[i].runIndex;
      var j := Judgment(vs[i].questionID, vs[i].evidence, vs[i].answer);
      BucketContents(vs, run, j);
      assert JudgmentsOk(qs, Bucket(vs, run));
      var k :| 0 <= k < |Bucket(vs, run)| && Bucket(vs, run)[k] == j;
      assert JudgmentOk(Bucket(vs, run)[k]);
      assert j.questionID in JudgedIds(Bucket(vs, run));
    }
    forall run, id | 1 <= run <= runs && id in QuestionIds(qs) ensures HasVote(vs, run, id) {
      assert JudgmentsOk(qs, Bucket(vs, run));
      assert id in JudgedIds(Bucket(vs, run));
      var k :| 0 <= k < |Bucket(vs, run)| && Bucket(vs, run)[k].questionID == id;
      var j := Bucket(vs, run)[k];
      BucketContents(vs, run, j);
      var i :| 0 <= i < |vs| && vs[i] == RunJudgment(run, id, j.evidence, j.answer);
      assert VoteKey(vs[i]) == (run, id);
    }
  }

  lemma {:induction false} OutOfRangeBucket(vs: seq<RunJudgment>, runs: int, run: int)
    requires RunsInRange(vs, runs) && !(1 <= run <= runs)
    ensures Bucket(vs, run) == []
  {
    if vs != [] {
      OutOfRangeBucket(vs[..|vs| - 1], runs, run);
    }
  }

  lemma AcceptedHasVotes(qs: seq<FinalQuestion>, vs: seq<RunJudgment>, runs: int)
    requires Accepted(qs, vs, runs)
    ensures vs != []
  {
    assert qs[0].id in QuestionIds(qs);
    assert HasVote(vs, 1, qs[0].id);
  }

  /** An accepted list holds one vote per run and question. */
  lemma {:induction false} AcceptedLength(qs: seq<FinalQuestion>, vs: seq<RunJudgment>, runs: int)
    requires Accepted(qs, vs, runs)
    ensures |vs| == runs * |qs|
  {
    BucketsLength(vs, runs);
    forall run | 1 <= run <= runs ensures |Bucket(vs, run)| == |qs| {
      AcceptedBucketOk(qs, vs, runs, run);
      SameIdsSameLength(qs, Bucket(vs, run));
    }
    BucketTotalUniform(vs, runs, |qs|);
  }

  function BucketTotal(vs: seq<RunJudgment>, runs: nat): nat {
    if runs == 0 then 0 else BucketTotal(vs, runs - 1) + |Bucket(vs, runs)|
  }

  lemma {:induction false} BucketTotalUniform(vs: seq<RunJudgment>, runs: nat, size: nat)
    requires forall run | 1 <= run <= runs :: |Bucket(vs, run)| == size
    ensures BucketTotal(vs, runs) == runs * size
  {
    if runs > 0 {
      BucketTotalUniform(vs, runs - 1, size);
      assert runs * size == (runs - 1) * size + size;
    }
  }

  lemma {:induction false} BucketTotalStep(vs: seq<RunJudgment>, runs: nat)
    requires vs != []
    ensures BucketTotal(vs, runs) ==
            BucketTotal(vs[..|vs| - 1], runs) + if 1 <= vs[|vs| - 1].runIndex <= runs then 1 else 0
  {
    if runs > 0 {
      BucketTotalStep(vs, runs - 1);
    }
  }

  lemma {:induction false} EmptyTotal(runs: nat)
    ensures BucketTotal([], runs) == 0
  {
    if runs > 0 {
      EmptyTotal(runs - 1);
    }
  }

  lemma {:induction false} BucketsLength(vs: seq<RunJudgment>, runs: nat)
    requires forall i | 0 <= i < |vs| :: 1 <= vs[i].runIndex <= runs
    ensures BucketTotal(vs, runs) == |vs|
  {
    if vs == [] {
      EmptyTotal(runs);
    } else {
      BucketsLength(vs[..|vs| - 1], runs);
      BucketTotalStep(vs, runs);
    }
  }

  lemma {:induction false} SameIdsSameLength(qs: seq<FinalQuestion>, js: seq<Judgment>)
    requires JudgmentsOk(qs, js)
    ensures |qs| == |js|
  {
    var a := seq(|qs|, i requires 0 <= i < |qs| => qs[i].id);
    var b := seq(|js|, i requires 0 <= i < |js| => js[i].questionID);
    forall x ensures x in a <==> x in b {
      if x in a {
        assert x in QuestionIds(qs);
        assert x in JudgedIds(js);
        var k :| 0 <= k < |js| && js[k].questionID == x;
        assert b[k] == x;
      }
      if x in b {
        assert x in JudgedIds(js);
        assert x in QuestionIds(qs);
        var k :| 0 <= k < |qs| && qs[k].id == x;
        assert a[k] == x;
      }
    }
    DistinctSameElements(a, b);
    PermutationBasics(a, b);
  }
}
