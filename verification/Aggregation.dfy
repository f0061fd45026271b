/** Aggregating repeated judgments, and why the answer does not depend on how the votes are listed. */
module Aggregation {
  import opened Common
  import opened Text
  import opened Seqs
  import opened Lookup
  import opened Types
  import opened Validate
  import opened Score

  // ---------------------------------------------------------------- the algorithm

  function BucketIn(byRun: map<int, seq<Judgment>>, run: int): seq<Judgment> {
    if run in byRun then byRun[run] else []
  }

  /** The map holds the judgments of every run. */
  ghost predicate Buckets(byRun: map<int, seq<Judgment>>, vs: seq<RunJudgment>) {
    forall run :: BucketIn(byRun, run) == Bucket(vs, run)
  }

  lemma BucketAppend(vs: seq<RunJudgment>, i: nat, run: int)
    requires i < |vs|
    ensures Bucket(vs[..i + 1], run) ==
            Bucket(vs[..i], run) + if vs[i].runIndex == run then [Judgment(vs[i].questionID, vs[i].evidence, vs[i].answer)] else []
  {
    assert vs[..i + 1][..i] == vs[..i];
  }

  lemma BucketsStep(byRun: map<int, seq<Judgment>>, more: map<int, seq<Judgment>>, vs: seq<RunJudgment>, i: nat)
    requires i < |vs| && Buckets(byRun, vs[..i])
    requires more == byRun[vs[i].runIndex := BucketIn(byRun, vs[i].runIndex) +
                                             [Judgment(vs[i].questionID, vs[i].evidence, vs[i].answer)]]
    ensures Buckets(more, vs[..i + 1])
  {
    forall run ensures BucketIn(more, run) == Bucket(vs[..i + 1], run) {
      BucketAppend(vs, i, run);
      assert BucketIn(byRun, run) == Bucket(vs[..i], run);
    }
  }

  method BucketByRun(vs: seq<RunJudgment>, runs: int)
    returns (r: Result<map<int, seq<Judgment>>, SemanticError>)
    ensures r.Success? <==> RunsInRange(vs, runs)
    ensures r.Success? ==> Buckets(r.value, vs)
    ensures r.Failure? ==> r.error.code == InvalidJudgments
  {
    var byRun: map<int, seq<Judgment>> := map[];
    for i := 0 to |vs|
      invariant forall k | 0 <= k < i :: 1 <= vs[k].runIndex <= runs
      invariant Buckets(byRun, vs[..i])
    {
      var v := vs[i];
      if v.runIndex < 1 || v.runIndex > runs {
        return Failure(Semantic(InvalidJudgments, RunOutOfRange));
      }
      var more := byRun[v.runIndex := BucketIn(byRun, v.runIndex) + [Judgment(v.questionID, v.evidence, v.answer)]];
      BucketsStep(byRun, more, vs, i);
      byRun := more;
    }
    assert vs[..|vs|] == vs;
    return Success(byRun);
  }

  /** The error of the first run whose judgments are rejected is that of the votes. */
  lemma FirstBadBucket(qs: seq<FinalQuestion>, vs: seq<RunJudgment>, run: nat)
    requires run > 0 && BucketsOk(qs, vs, run - 1) && !JudgmentsOk(qs, Bucket(vs, run))
    ensures JudgmentsCode(qs, Bucket(vs, run)) == if JudgeableQuestions(qs) then InvalidJudgments else JudgmentsCode(qs, Bucket(vs, 1))
  {
    assert run > 1 ==> JudgmentsOk(qs, Bucket(vs, 1));
  }

  lemma BucketsOkStep(qs: seq<FinalQuestion>, vs: seq<RunJudgment>, run: nat)
    requires run > 0 && BucketsOk(qs, vs, run - 1)
    ensures BucketsOk(qs, vs, run) <==> JudgmentsOk(qs, Bucket(vs, run))
  {
  }

  lemma BucketsOkUpTo(qs: seq<FinalQuestion>, vs: seq<RunJudgment>, run: nat, runs: nat)
    requires run <= runs && !BucketsOk(qs, vs, run)
    ensures !BucketsOk(qs, vs, runs)
  {
  }

  /** Per run, the lookup map of its judgments. */
  method IndexRuns(qs: seq<FinalQuestion>, vs: seq<RunJudgment>, runs: nat, byRun: map<int, seq<Judgment>>)
    returns (r: Result<map<int, map<string, Judgment>>, SemanticError>)
    requires Buckets(byRun, vs)
    ensures r.Success? <==> BucketsOk(qs, vs, runs)
    ensures r.Success? ==> forall run | 1 <= run <= runs :: run in r.value && r.value[run] == MapOf(Bucket(vs, run), JudgmentKey)
    ensures r.Failure? ==> r.error.code == if JudgeableQuestions(qs) then InvalidJudgments else JudgmentsCode(qs, Bucket(vs, 1))
  {
    var indexed: map<int, map<string, Judgment>> := map[];
    for run := 1 to runs + 1
      invariant BucketsOk(qs, vs, run - 1)
      invariant forall k | 1 <= k < run :: k in indexed && indexed[k] == MapOf(Bucket(vs, k), JudgmentKey)
    {
      var judgments := BucketIn(byRun, run);
      assert judgments == Bucket(vs, run);
      var err := ValidateJudgments(qs, judgments);
      BucketsOkStep(qs, vs, run);
      if err.Some? {
        FirstBadBucket(qs, vs, run);
        BucketsOkUpTo(qs, vs, run, runs);
        return Failure(err.value);
      }
      var judgmentByQuestion := IndexBy(judgments, JudgmentKey);
      indexed := indexed[run := judgmentByQuestion];
    }
    return Success(indexed);
  }

  /** The votes on one question, run by run, and their strict majority. */
  method Tally(vs: seq<RunJudgment>, runs: nat, id: string, indexed: map<int, map<string, Judgment>>)
    returns (a: AggregatedJudgment)
    requires forall run | 1 <= run <= runs :: run in indexed && indexed[run] == MapOf(Bucket(vs, run), JudgmentKey)
    ensures a == AggregatedJudgment(id, RunsOf(vs, id, runs), Majority(vs, id, runs))
  {
    var votes, yesCount := [], 0;
    for run := 1 to runs + 1
      invariant |votes| == run - 1
      invariant forall k | 0 <= k < run - 1 :: votes[k] == VotedRun(vs, k + 1, id)
      invariant yesCount == YesCount(vs, id, run - 1)
    {
      var judgment := if id in indexed[run] then indexed[run][id] else Judgment("", "", "");
      BucketVote(vs, run, id);
      votes := votes + [JudgmentRun(run, judgment.evidence, judgment.answer)];
      if judgment.answer == ANSWER_YES {
        yesCount := yesCount + 1;
      }
    }
    assert votes == RunsOf(vs, id, runs);
    var answer := ANSWER_NO;
    if yesCount > runs / 2 {
      answer := ANSWER_YES;
    }
    return AggregatedJudgment(id, votes, answer);
  }

  lemma {:induction false} DerivedOk(qs: seq<FinalQuestion>, vs: seq<RunJudgment>, runs: nat)
    requires JudgeableQuestions(qs)
    ensures JudgmentsOk(qs, Derived(qs, vs, runs))
  {
    var js := Derived(qs, vs, runs);
    var evidence := "derived from repeated judgments";
    assert !IsSpace(evidence[0]);
    assert forall i | 0 <= i < |qs| :: js[i].questionID == qs[i].id && js[i].evidence == evidence;
    assert JudgedIds(js) == QuestionIds(qs);
  }

  method TallyAll(qs: seq<FinalQuestion>, vs: seq<RunJudgment>, runs: nat, indexed: map<int, map<string, Judgment>>)
    returns (judgments: seq<AggregatedJudgment>, derived: seq<Judgment>)
    requires forall run | 1 <= run <= runs :: run in indexed && indexed[run] == MapOf(Bucket(vs, run), JudgmentKey)
    ensures judgments == Aggregated(qs, vs, runs) && derived == Derived(qs, vs, runs)
  {
    judgments, derived := [], [];
    for i := 0 to |qs|
      invariant judgments == Aggregated(qs, vs, runs)[..i]
      invariant derived == Derived(qs, vs, runs)[..i]
    {
      var aggregated := Tally(vs, runs, qs[i].id, indexed);
      judgments := judgments + [aggregated];
      derived := derived + [Judgment(qs[i].id, "derived from repeated judgments", aggregated.answer)];
    }
  }

  /** The error code of votes that are not accepted: the questions are to blame only if the first run's votes have the right
      shape. */
  ghost function VotesCode(qs: seq<FinalQuestion>, vs: seq<RunJudgment>, runs: int): ErrorCode {
    if !RunsInRange(vs, runs) || JudgeableQuestions(qs) then InvalidJudgments else JudgmentsCode(qs, Bucket(vs, 1))
  }

  // What aggregating accepted votes yields, in terms of the votes alone.

  /** One judgment a question, in order, with the vote of every run on it. */
  ghost predicate RunsAreVotes(judgments: seq<AggregatedJudgment>, qs: seq<FinalQuestion>, vs: seq<RunJudgment>, runs: int) {
    && |judgments| == |qs|
    && (forall i | 0 <= i < |qs| :: judgments[i].questionID == qs[i].id && |judgments[i].runs| == runs)
    && forall i, k | 0 <= i < |qs| && 0 <= k < runs ::
         var run := judgments[i].runs[k];
         run.runIndex == k + 1 && RunJudgment(k + 1, qs[i].id, run.evidence, run.answer) in vs
  }

  /** Each answer is yes if more than half of the runs say yes, and no otherwise. */
  ghost predicate AnswersAreMajorities(judgments: seq<AggregatedJudgment>, runs: int) {
    forall i | 0 <= i < |judgments| ::
      && |judgments[i].runs| == runs
      && judgments[i].answer == if 2 * |set k | 0 <= k < runs && judgments[i].runs[k].answer == "yes"| > runs then "yes" else "no"
  }

  /** Every question counts once, those answered with no are failed, and the rate is the share of the others. */
  ghost predicate ScoresAnswers(s: ScoreResult, qs: seq<FinalQuestion>, judgments: seq<AggregatedJudgment>) {
    && |judgments| == |qs| == s.totalPossiblePoints > 0
    && s.satisfiedPoints + |s.failedQuestionIDs| == |qs|
    && s.checklistPassRate == s.satisfiedPoints as real / |qs| as real
    && forall i | 0 <= i < |qs| :: qs[i].id in s.failedQuestionIDs <==> judgments[i].answer == "no"
  }

  lemma {:induction false} AggregationIsRight(qs: seq<FinalQuestion>, vs: seq<RunJudgment>, runs: nat)
    requires Accepted(qs, vs, runs)
    ensures var r := Aggregate(qs, vs, runs);
            && RunsAreVotes(r.judgments, qs, vs, runs) && AnswersAreMajorities(r.judgments, runs)
            && ScoresAnswers(r.score, qs, r.judgments)
  {
    var judgments := Aggregated(qs, vs, runs);
    forall i, k | 0 <= i < |qs| && 0 <= k < runs
      ensures var run := judgments[i].runs[k]; run.runIndex == k + 1 && RunJudgment(k + 1, qs[i].id, run.evidence, run.answer) in vs
    {
      AggregatedRun(qs, vs, runs, i, k);
    }
    forall i | 0 <= i < |qs|
      ensures judgments[i].answer == if 2 * |set k | 0 <= k < runs && judgments[i].runs[k].answer == "yes"| > runs then "yes" else "no"
    {
      AggregatedAnswer(qs, vs, runs, i);
    }
    AggregatedScore(qs, vs, runs);
  }

  /** Votes bucketed by run, validated, tallied question by question and scored. */
  method AggregateJudgments(qs: seq<FinalQuestion>, vs: seq<RunJudgment>, runs: int)
    returns (r: Result<AggregationResult, CoreError>)
    ensures r.Success? <==> Accepted(qs, vs, runs)
    ensures r.Success? ==> r.value == Aggregate(qs, vs, runs)
    ensures r.Success? ==> RunsAreVotes(r.value.judgments, qs, vs, runs) && AnswersAreMajorities(r.value.judgments, runs)
    ensures r.Success? ==> ScoresAnswers(r.value.score, qs, r.value.judgments)
    ensures r.Failure? ==> (r.error.PlainError? <==> runs <= 0 || runs % 2 == 0)
    ensures r.Failure? && r.error.SemanticFailure? ==> r.error.semantic.code == VotesCode(qs, vs, runs)
  {
    if !ValidEvaluationRuns(runs, runs) {
      return Failure(PlainError);
    }
    var buckets := BucketByRun(vs, runs);
    if buckets.Failure? {
      NotInRange(qs, vs, runs);
      return Failure(SemanticFailure(buckets.error));
    }
    var indexed := IndexRuns(qs, vs, runs, buckets.value);
    AcceptedByBucket(qs, vs, runs);
    if indexed.Failure? {
      return Failure(SemanticFailure(indexed.error));
    }
    var judgments, derived := TallyAll(qs, vs, runs, indexed.value);
    DerivedOk(qs, vs, runs);
    var score := ScoreChecklist(qs, derived);
    match score {
      case Success(s) =>
        AggregationIsRight(qs, vs, runs);
        return Success(AggregationResult(judgments, s));
      case Failure(e) => return Failure(SemanticFailure(e));
    }
  }

  lemma NotInRange(qs: seq<FinalQuestion>, vs: seq<RunJudgment>, runs: int)
    requires !RunsInRange(vs, runs)
    ensures !Accepted(qs, vs, runs)
  {
    var i :| 0 <= i < |vs| && !(1 <= vs[i].runIndex <= runs);
    assert !VoteOk(vs[i], runs, QuestionIds(qs));
  }

  // ---------------------------------------------------------------- the order of the votes

  lemma {:induction false} AcceptedPermutation(qs: seq<FinalQuestion>, a: seq<RunJudgment>, b: seq<RunJudgment>, runs: int)
    requires Permutation(a, b) && Accepted(qs, a, runs)
    ensures Accepted(qs, b, runs)
  {
    assert UniqueBy(a, VoteKey);
    PermutationKeepsUnique(a, b, VoteKey);
    PermutationBasics(a, b);
    forall i | 0 <= i < |b| ensures VoteOk(b[i], runs, QuestionIds(qs)) {
      assert b[i] in a;
      var k :| 0 <= k < |a| && a[k] == b[i];
      assert VoteOk(a[k], runs, QuestionIds(qs));
    }
    forall run, id | 1 <= run <= runs && id in QuestionIds(qs) ensures HasVote(b, run, id) {
      assert HasVote(a, run, id);
      var k :| 0 <= k < |a| && VoteKey(a[k]) == (run, id);
      assert a[k] in b;
      var i :| 0 <= i < |b| && b[i] == a[k];
      assert VoteKey(b[i]) == (run, id);
    }
  }

  lemma {:induction false} YesCountPermutation(a: seq<RunJudgment>, b: seq<RunJudgment>, id: string, n: nat)
    requires Permutation(a, b) && UniqueVotes(a)
    ensures YesCount(a, id, n) == YesCount(b, id, n)
  {
    if n > 0 {
      assert UniqueBy(a, VoteKey);
      YesCountPermutation(a, b, id, n - 1);
      FindPermutation(a, b, VoteKey, (n, id));
    }
  }

  /** The same votes in another order aggregate to the same result: rows may come back sorted differently. */
  lemma {:induction false} AggregatePermutation(qs: seq<FinalQuestion>, a: seq<RunJudgment>, b: seq<RunJudgment>, runs: int)
    requires Permutation(a, b) && Accepted(qs, a, runs)
    ensures Accepted(qs, b, runs) && Aggregate(qs, a, runs) == Aggregate(qs, b, runs)
  {
    AcceptedPermutation(qs, a, b, runs);
    assert UniqueBy(a, VoteKey);
    forall i | 0 <= i < |qs|
      ensures Majority(a, qs[i].id, runs) == Majority(b, qs[i].id, runs)
      ensures RunsOf(a, qs[i].id, runs) == RunsOf(b, qs[i].id, runs)
    {
      YesCountPermutation(a, b, qs[i].id, runs);
      forall r | 1 <= r <= runs ensures VotedRun(a, r, qs[i].id) == VotedRun(b, r, qs[i].id) {
        FindPermutation(a, b, VoteKey, (r, qs[i].id));
      }
    }
    assert Aggregated(qs, a, runs) == Aggregated(qs, b, runs);
    assert Derived(qs, a, runs) == Derived(qs, b, runs);
  }

  // ---------------------------------------------------------------- majorities

  /** The vote an accepted list holds for a run and a question. */
  lemma {:induction false} AcceptedVote(qs: seq<FinalQuestion>, vs: seq<RunJudgment>, runs: int, run: int, id: string)
    requires Accepted(qs, vs, runs) && 1 <= run <= runs && id in QuestionIds(qs)
    ensures RunJudgment(run, id, Vote(vs, run, id).evidence, Vote(vs, run, id).answer) in vs
    ensures Vote(vs, run, id).answer == ANSWER_YES || Vote(vs, run, id).answer == ANSWER_NO
  {
    assert HasVote(vs, run, id);
    var k :| 0 <= k < |vs| && VoteKey(vs[k]) == (run, id);
    assert UniqueBy(vs, VoteKey);
    FindUnique(vs, VoteKey, vs[k]);
    assert VoteOk(vs[k], runs, QuestionIds(qs));
  }

  lemma {:induction false} VotesSplit(qs: seq<FinalQuestion>, vs: seq<RunJudgment>, runs: int, id: string, n: nat)
    requires Accepted(qs, vs, runs) && n <= runs && id in QuestionIds(qs)
    ensures YesCount(vs, id, n) + NoCount(vs, id, n) == n
  {
    if n > 0 {
      VotesSplit(qs, vs, runs, id, n - 1);
      AcceptedVote(qs, vs, runs, n, id);
    }
  }

  /** The aggregated answer is the answer of more than half of the runs; there are no ties. */
  lemma {:induction false} StrictMajority(qs: seq<FinalQuestion>, vs: seq<RunJudgment>, runs: int, i: nat)
    requires Accepted(qs, vs, runs) && i < |qs|
    ensures var id, answer := qs[i].id, Aggregated(qs, vs, runs)[i].answer;
            && (answer == ANSWER_YES <==> YesCount(vs, id, runs) > NoCount(vs, id, runs))
            && (answer == ANSWER_NO <==> YesCount(vs, id, runs) < NoCount(vs, id, runs))
            && YesCount(vs, id, runs) + NoCount(vs, id, runs) == runs
  {
    assert qs[i].id in QuestionIds(qs);
    VotesSplit(qs, vs, runs, qs[i].id, runs);
  }

  /** Every run of an aggregated judgment is the vote of that run on that question. */
  lemma {:induction false} AggregatedRun(qs: seq<FinalQuestion>, vs: seq<RunJudgment>, runs: nat, i: nat, k: nat)
    requires Accepted(qs, vs, runs) && i < |qs| && k < runs
    ensures var a := Aggregated(qs, vs, runs)[i];
            && a.questionID == qs[i].id && |a.runs| == runs && a.runs[k].runIndex == k + 1
            && RunJudgment(k + 1, qs[i].id, a.runs[k].evidence, a.runs[k].answer) in vs
  {
    assert qs[i].id in QuestionIds(qs);
    AcceptedVote(qs, vs, runs, k + 1, qs[i].id);
  }

  lemma YesRunsStep(rs: seq<JudgmentRun>, n: nat)
    requires n < |rs|
    ensures |set k | 0 <= k < n + 1 && rs[k].answer == "yes"| ==
            |set k | 0 <= k < n && rs[k].answer == "yes"| + if rs[n].answer == "yes" then 1 else 0
  {
    var yes, before := (set k | 0 <= k < n + 1 && rs[k].answer == "yes"), (set k | 0 <= k < n && rs[k].answer == "yes");
    if rs[n].answer == "yes" {
      assert yes == before + {n};
    } else {
      assert yes == before;
    }
  }

  lemma {:induction false} YesRuns(vs: seq<RunJudgment>, id: string, n: nat, rs: seq<JudgmentRun>)
    requires n <= |rs| && forall k | 0 <= k < n :: rs[k].answer == Vote(vs, k + 1, id).answer
    ensures YesCount(vs, id, n) == |set k | 0 <= k < n && rs[k].answer == "yes"|
  {
    var yes := set k | 0 <= k < n && rs[k].answer == "yes";
    if n == 0 {
      assert yes == {};
    } else {
      YesRuns(vs, id, n - 1, rs);
      YesRunsStep(rs, n - 1);
    }
  }

  /** Its answer is yes exactly if more than half of these runs say yes, and no otherwise. */
  lemma {:induction false} AggregatedAnswer(qs: seq<FinalQuestion>, vs: seq<RunJudgment>, runs: nat, i: nat)
    requires i < |qs|
    ensures var a := Aggregated(qs, vs, runs)[i];
            && |a.runs| == runs && (a.answer == "yes" || a.answer == "no")
            && (a.answer == "yes" <==> 2 * |set k | 0 <= k < runs && a.runs[k].answer == "yes"| > runs)
  {
    var a := Aggregated(qs, vs, runs)[i];
    YesRuns(vs, qs[i].id, runs, a.runs);
  }

  lemma {:induction false} AggregatedScore(qs: seq<FinalQuestion>, vs: seq<RunJudgment>, runs: nat)
    requires JudgeableQuestions(qs)
    ensures ScoresAnswers(Aggregate(qs, vs, runs).score, qs, Aggregated(qs, vs, runs))
  {
    DerivedOk(qs, vs, runs);
    ScoreIsRight(qs, Derived(qs, vs, runs));
    forall i | 0 <= i < |qs|
      ensures qs[i].id in FailedIds(qs, Derived(qs, vs, runs)) <==> Aggregated(qs, vs, runs)[i].answer == "no"
    {
      FailedIdsAre(qs, Derived(qs, vs, runs), i);
      DerivedAnswer(qs, vs, runs, i);
    }
  }

  lemma {:induction false} DerivedAnswer(qs: seq<FinalQuestion>, vs: seq<RunJudgment>, runs: nat, i: nat)
    requires UniqueQuestions(qs) && i < |qs|
    ensures AnsweredYes(Derived(qs, vs, runs), qs[i].id) <==> Majority(vs, qs[i].id, runs) == ANSWER_YES
  {
    var js := Derived(qs, vs, runs);
    assert UniqueBy(js, JudgmentKey);
    FindUnique(js, JudgmentKey, js[i]);
  }

  // ---------------------------------------------------------------- changing votes

  function FlipAnswer(answer: string): string {
    if answer == ANSWER_YES then ANSWER_NO else ANSWER_YES
  }

  function FlipVote(v: RunJudgment): RunJudgment {
    v.(answer := FlipAnswer(v.answer))
  }

  function FlipAll(vs: seq<RunJudgment>): (r: seq<RunJudgment>)
    ensures |r| == |vs|
  {
    seq(|vs|, i requires 0 <= i < |vs| => FlipVote(vs[i]))
  }

  /** a and b answer the same (run, question) pairs, position by position. */
  ghost predicate SameBallots(a: seq<RunJudgment>, b: seq<RunJudgment>) {
    |a| == |b| && forall i | 0 <= i < |a| :: VoteKey(a[i]) == VoteKey(b[i])
  }

  lemma {:induction false} SameBallotsFind(a: seq<RunJudgment>, b: seq<RunJudgment>, k: nat)
    requires SameBallots(a, b) && UniqueVotes(a) && k < |a|
    ensures UniqueVotes(b)
    ensures Find(a, VoteKey, VoteKey(a[k])) == Some(a[k]) && Find(b, VoteKey, VoteKey(a[k])) == Some(b[k])
  {
    assert UniqueBy(a, VoteKey);
    assert UniqueBy(b, VoteKey) by {
      forall i, j | 0 <= i < j < |b| ensures VoteKey(b[i]) != VoteKey(b[j]) {
        assert VoteKey(a[i]) != VoteKey(a[j]);
      }
    }
    FindUnique(a, VoteKey, a[k]);
    FindUnique(b, VoteKey, b[k]);
  }

  /** Changing answers and evidence keeps a list acceptable as long as each vote stays a vote. */
  lemma {:induction false} SameBallotsAccepted(qs: seq<FinalQuestion>, a: seq<RunJudgment>, b: seq<RunJudgment>, runs: int)
    requires Accepted(qs, a, runs) && SameBallots(a, b)
    requires forall i | 0 <= i < |b| :: !Blank(b[i].evidence) && (b[i].answer == ANSWER_YES || b[i].answer == ANSWER_NO)
    ensures Accepted(qs, b, runs)
  {
    forall i, j | 0 <= i < j < |b| ensures VoteKey(b[i]) != VoteKey(b[j]) {
      assert VoteKey(a[i]) != VoteKey(a[j]);
    }
    forall i | 0 <= i < |b| ensures VoteOk(b[i], runs, QuestionIds(qs)) {
      assert VoteOk(a[i], runs, QuestionIds(qs)) && VoteKey(a[i]) == VoteKey(b[i]);
    }
    forall run, id | 1 <= run <= runs && id in QuestionIds(qs) ensures HasVote(b, run, id) {
      assert HasVote(a, run, id);
      var k :| 0 <= k < |a| && VoteKey(a[k]) == (run, id);
      assert VoteKey(b[k]) == (run, id);
    }
  }

  lemma {:induction false} FlippedVote(qs: seq<FinalQuestion>, vs: seq<RunJudgment>, runs: int, id: string, n: nat)
    requires Accepted(qs, vs, runs) && 1 <= n <= runs && id in QuestionIds(qs)
    ensures Vote(FlipAll(vs), n, id).answer == ANSWER_YES <==> Vote(vs, n, id).answer == ANSWER_NO
  {
    assert HasVote(vs, n, id);
    var k :| 0 <= k < |vs| && VoteKey(vs[k]) == (n, id);
    SameBallotsFind(vs, FlipAll(vs), k);
    assert VoteOk(vs[k], runs, QuestionIds(qs));
  }

  lemma {:induction false} FlippedCount(qs: seq<FinalQuestion>, vs: seq<RunJudgment>, runs: int, id: string, n: nat)
    requires Accepted(qs, vs, runs) && n <= runs && id in QuestionIds(qs)
    ensures YesCount(FlipAll(vs), id, n) == NoCount(vs, id, n)
  {
    if n > 0 {
      FlippedCount(qs, vs, runs, id, n - 1);
      FlippedVote(qs, vs, runs, id, n);
    }
  }

  /** Flipping every vote flips every aggregated answer. */
  lemma {:induction false} FlipFlips(qs: seq<FinalQuestion>, vs: seq<RunJudgment>, runs: int)
    requires Accepted(qs, vs, runs)
    ensures Accepted(qs, FlipAll(vs), runs)
    ensures forall i | 0 <= i < |qs| ::
              Aggregated(qs, FlipAll(vs), runs)[i].answer == FlipAnswer(Aggregated(qs, vs, runs)[i].answer)
  {
    assert forall i | 0 <= i < |vs| :: VoteOk(vs[i], runs, QuestionIds(qs));
    SameBallotsAccepted(qs, vs, FlipAll(vs), runs);
    forall i | 0 <= i < |qs|
      ensures Aggregated(qs, FlipAll(vs), runs)[i].answer == FlipAnswer(Aggregated(qs, vs, runs)[i].answer)
    {
      assert qs[i].id in QuestionIds(qs);
      FlippedCount(qs, vs, runs, qs[i].id, runs);
      VotesSplit(qs, vs, runs, qs[i].id, runs);
    }
  }

  /** b is a with some answers turned from no to yes, and any evidence. */
  ghost predicate Raises(a: seq<RunJudgment>, b: seq<RunJudgment>) {
    SameBallots(a, b) && forall i | 0 <= i < |a| :: a[i].answer == ANSWER_YES ==> b[i].answer == ANSWER_YES
  }

  lemma {:induction false} RaisedCount(qs: seq<FinalQuestion>, a: seq<RunJudgment>, b: seq<RunJudgment>, runs: int, id: string, n: nat)
    requires Accepted(qs, a, runs) && Raises(a, b) && n <= runs && id in QuestionIds(qs)
    ensures YesCount(a, id, n) <= YesCount(b, id, n)
  {
    if n > 0 {
      RaisedCount(qs, a, b, runs, id, n - 1);
      assert HasVote(a, n, id);
      var k :| 0 <= k < |a| && VoteKey(a[k]) == (n, id);
      SameBallotsFind(a, b, k);
    }
  }

  lemma {:induction false} RaisedScore(qs: seq<FinalQuestion>, a: seq<RunJudgment>, b: seq<RunJudgment>, runs: int, n: nat)
    requires Accepted(qs, a, runs) && Accepted(qs, b, runs) && Raises(a, b) && n <= |qs|
    ensures Satisfied(qs[..n], Derived(qs, a, runs)) <= Satisfied(qs[..n], Derived(qs, b, runs))
    ensures forall id | id in FailedIds(qs[..n], Derived(qs, b, runs)) :: id in FailedIds(qs[..n], Derived(qs, a, runs))
  {
    if n > 0 {
      assert qs[..n][..n - 1] == qs[..n - 1];
      RaisedScore(qs, a, b, runs, n - 1);
      assert qs[n - 1].id in QuestionIds(qs);
      RaisedCount(qs, a, b, runs, qs[n - 1].id, runs);
      DerivedAnswer(qs, a, runs, n - 1);
      DerivedAnswer(qs, b, runs, n - 1);
    }
  }

  /** Turning a no into a yes never lowers the score and never adds a failed question. */
  lemma {:induction false} YesNeverHurts(qs: seq<FinalQuestion>, a: seq<RunJudgment>, b: seq<RunJudgment>, runs: int)
    requires Accepted(qs, a, runs) && Accepted(qs, b, runs) && Raises(a, b)
    ensures Aggregate(qs, a, runs).score.satisfiedPoints <= Aggregate(qs, b, runs).score.satisfiedPoints
    ensures Aggregate(qs, a, runs).score.checklistPassRate <= Aggregate(qs, b, runs).score.checklistPassRate
    ensures forall id | id in Aggregate(qs, b, runs).score.failedQuestionIDs :: id in Aggregate(qs, a, runs).score.failedQuestionIDs
  {
    RaisedScore(qs, a, b, runs, |qs|);
    assert qs[..|qs|] == qs;
    RateMonotone(Satisfied(qs, Derived(qs, a, runs)), Satisfied(qs, Derived(qs, b, runs)), |qs|);
  }

  lemma RateMonotone(s: nat, t: nat, total: nat)
    requires s <= t && total > 0
    ensures PassRate(s, total) <= PassRate(t, total)
  {
  }

  /** The score depends on the answers alone: changing evidence never changes it. */
  lemma {:induction false} EvidenceIsNotScored(qs: seq<FinalQuestion>, a: seq<RunJudgment>, b: seq<RunJudgment>, runs: int)
    requires Accepted(qs, a, runs) && Accepted(qs, b, runs) && SameBallots(a, b)
    requires forall i | 0 <= i < |a| :: a[i].answer == b[i].answer
    ensures Aggregate(qs, a, runs).score == Aggregate(qs, b, runs).score
  {
    forall i | 0 <= i < |qs| ensures Majority(a, qs[i].id, runs) == Majority(b, qs[i].id, runs) {
      assert qs[i].id in QuestionIds(qs);
      RaisedCount(qs, a, b, runs, qs[i].id, runs);
      RaisedCount(qs, b, a, runs, qs[i].id, runs);
    }
    assert Derived(qs, a, runs) == Derived(qs, b, runs);
  }

  // ---------------------------------------------------------------- one run

  /** A single list of judgments, tagged as run 1 the way old rows were. */
  function TagRun1(js: seq<Judgment>): (vs: seq<RunJudgment>)
    ensures |vs| == |js|
  {
    seq(|js|, i requires 0 <= i < |js| => RunJudgment(1, js[i].questionID, js[i].evidence, js[i].answer))
  }

  lemma {:induction false} TagRun1Bucket(js: seq<Judgment>)
    ensures Bucket(TagRun1(js), 1) == js
  {
    if js != [] {
      var n := |js| - 1;
      assert TagRun1(js)[..n] == TagRun1(js[..n]);
      TagRun1Bucket(js[..n]);
      assert js == js[..n] + [js[n]];
    }
  }

  lemma {:induction false} SameAnswersSameScore(qs: seq<FinalQuestion>, a: seq<Judgment>, b: seq<Judgment>)
    requires forall i | 0 <= i < |qs| :: AnsweredYes(a, qs[i].id) <==> AnsweredYes(b, qs[i].id)
    ensures Satisfied(qs, a) == Satisfied(qs, b) && FailedIds(qs, a) == FailedIds(qs, b)
  {
    if qs != [] {
      SameAnswersSameScore(qs[..|qs| - 1], a, b);
    }
  }

  /** With one run, aggregation scores exactly like a single list of judgments. */
  lemma {:induction false} OneRunIsScoreChecklist(qs: seq<FinalQuestion>, js: seq<Judgment>)
    ensures Accepted(qs, TagRun1(js), 1) <==> JudgmentsOk(qs, js)
    ensures JudgmentsOk(qs, js) ==> Aggregate(qs, TagRun1(js), 1).score == ScoreOf(qs, js)
  {
    var vs := TagRun1(js);
    TagRun1Bucket(js);
    AcceptedByBucket(qs, vs, 1);
    assert BucketsOk(qs, vs, 1) <==> JudgmentsOk(qs, Bucket(vs, 1));
    if JudgmentsOk(qs, js) {
      forall i | 0 <= i < |qs| ensures AnsweredYes(Derived(qs, vs, 1), qs[i].id) <==> AnsweredYes(js, qs[i].id) {
        DerivedAnswer(qs, vs, 1, i);
        BucketVote(vs, 1, qs[i].id);
        assert YesCount(vs, qs[i].id, 1) == if Vote(vs, 1, qs[i].id).answer == ANSWER_YES then 1 else 0 by {
          assert YesCount(vs, qs[i].id, 0) == 0;
        }
      }
      SameAnswersSameScore(qs, Derived(qs, vs, 1), js);
    }
  }

  // ---------------------------------------------------------------- comparing two lists of votes

  /** `runJudgmentsEqual`: index a, then look every element of b up; Go's zero value stands for a missing key. */
  predicate IndexedEqual(a: seq<RunJudgment>, b: seq<RunJudgment>) {
    |a| == |b| && forall i | 0 <= i < |b| :: LookedUp(a, VoteKey(b[i])) == b[i]
  }

  function LookedUp(a: seq<RunJudgment>, key: (int, string)): RunJudgment {
    match Find(a, VoteKey, key)
    case Some(v) => v
    case None => RunJudgment(0, "", "", "")
  }

  method RunJudgmentsEqual(a: seq<RunJudgment>, b: seq<RunJudgment>) returns (equal: bool)
    ensures equal <==> IndexedEqual(a, b)
  {
    if |a| != |b| {
      return false;
    }
    var indexed := IndexBy(a, VoteKey);
    for i := 0 to |b|
      invariant forall k | 0 <= k < i :: LookedUp(a, VoteKey(b[k])) == b[k]
    {
      var found := if VoteKey(b[i]) in indexed then indexed[VoteKey(b[i])] else RunJudgment(0, "", "", "");
      assert found == LookedUp(a, VoteKey(b[i]));
      if found != b[i] {
        return false;
      }
    }
    return true;
  }

  /** For accepted lists the one-directional check is equality of the two as bags of votes. */
  lemma {:induction false} IndexedEqualIsPermutation(qs: seq<FinalQuestion>, a: seq<RunJudgment>, b: seq<RunJudgment>, runs: int)
    requires Accepted(qs, a, runs) && Accepted(qs, b, runs)
    ensures IndexedEqual(a, b) <==> Permutation(a, b)
  {
    assert UniqueBy(a, VoteKey) && UniqueBy(b, VoteKey);
    if IndexedEqual(a, b) {
      forall x | x in b ensures x in a {
        var i :| 0 <= i < |b| && b[i] == x;
        assert LookedUp(a, VoteKey(b[i])) == b[i];
        assert VoteOk(b[i], runs, QuestionIds(qs));
      }
      UniqueByIsDistinct(b, VoteKey);
      Pigeonhole(a, b);
    }
    if Permutation(a, b) {
      PermutationBasics(a, b);
      forall i | 0 <= i < |b| ensures LookedUp(a, VoteKey(b[i])) == b[i] {
        assert b[i] in a;
        FindUnique(a, VoteKey, b[i]);
      }
    }
  }

  /** Without acceptance the check is weaker: a repeated vote hides a missing one. */
  lemma {:induction false} IndexedEqualNeedsAcceptance()
    ensures exists a, b :: IndexedEqual(a, b) && !Permutation(a, b)
  {
    var x, y := RunJudgment(1, "q1", "e", ANSWER_YES), RunJudgment(1, "q2", "e", ANSWER_YES);
    var a, b := [x, y], [x, x];
    assert x.questionID[1] != y.questionID[1];
    assert UniqueBy(a, VoteKey);
    FindUnique(a, VoteKey, x);
    assert IndexedEqual(a, b);
    assert y in multiset(a) && y !in multiset(b);
  }
}
