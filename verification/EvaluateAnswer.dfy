/** The evaluation workflow: load the checklist, judge it run by run, aggregate, and end. */
module EvaluateAnswer {
  import opened Common
  import opened Types
  import opened Validate
  import opened Score
  import opened Aggregation
  import opened Failures
  import opened Database
  import opened Calls
  import opened Workflows

  // ---------------------------------------------------------------- from judgments to votes

  /** The votes of one run, as the inner loop appends them. */
  function Tagged(run: int, js: seq<Judgment>): (vs: seq<RunJudgment>)
    ensures |vs| == |js|
  {
    seq(|js|, i requires 0 <= i < |js| => RunJudgment(run, js[i].questionID, js[i].evidence, js[i].answer))
  }

  /** The judgments of run 1, 2, ... one after the other. */
  function Votes(judged: seq<seq<Judgment>>): seq<RunJudgment> {
    if judged == [] then [] else Votes(judged[..|judged| - 1]) + Tagged(|judged|, judged[|judged| - 1])
  }

  lemma {:induction false} BucketConcat(a: seq<RunJudgment>, b: seq<RunJudgment>, run: int)
    ensures Bucket(a + b, run) == Bucket(a, run) + Bucket(b, run)
  {
    if b == [] {
      assert a + b == a;
    } else {
      var n := |b| - 1;
      assert (a + b)[..|a + b| - 1] == a + b[..n];
      BucketConcat(a, b[..n], run);
    }
  }

  lemma {:induction false} BucketOfTagged(tag: int, js: seq<Judgment>, run: int)
    ensures Bucket(Tagged(tag, js), run) == if run == tag then js else []
  {
    if js != [] {
      var n := |js| - 1;
      assert Tagged(tag, js)[..n] == Tagged(tag, js[..n]);
      BucketOfTagged(tag, js[..n], run);
      assert js == js[..n] + [js[n]];
    }
  }

  lemma {:induction false} BucketOfVotes(judged: seq<seq<Judgment>>, run: int)
    ensures Bucket(Votes(judged), run) == if 1 <= run <= |judged| then judged[run - 1] else []
  {
    if judged != [] {
      var n := |judged| - 1;
      BucketOfVotes(judged[..n], run);
      BucketOfMore(Votes(judged[..n]), n + 1, judged[n], run);
    }
  }

  lemma {:induction false} BucketOfMore(vs: seq<RunJudgment>, tag: int, js: seq<Judgment>, run: int)
    ensures Bucket(vs + Tagged(tag, js), run) == if run == tag then Bucket(vs, run) + js else Bucket(vs, run)
  {
    BucketConcat(vs, Tagged(tag, js), run);
    BucketOfTagged(tag, js, run);
  }

  lemma {:induction false} VotesInRange(judged: seq<seq<Judgment>>)
    ensures RunsInRange(Votes(judged), |judged|)
  {
    if judged != [] {
      VotesInRange(judged[..|judged| - 1]);
    }
  }

  /** Judgments that were accepted run by run are accepted together: aggregation never rejects them. */
  lemma {:induction false} JudgedIsAccepted(qs: seq<FinalQuestion>, judged: seq<seq<Judgment>>)
    requires |judged| % 2 != 0 && forall r | 0 <= r < |judged| :: JudgmentsOk(qs, judged[r])
    ensures Accepted(qs, Votes(judged), |judged|)
  {
    VotesInRange(judged);
    forall run | 1 <= run <= |judged| ensures JudgmentsOk(qs, Bucket(Votes(judged), run)) {
      BucketOfVotes(judged, run);
    }
    AcceptedByBucket(qs, Votes(judged), |judged|);
  }

  // ---------------------------------------------------------------- the workflow

  datatype EvaluationScript = EvaluationScript(
    input: seq<Attempted<()>>,
    load: seq<Attempted<Checklist>>,
    judge: (int, seq<FinalQuestion>) -> seq<Attempted<seq<Judgment>>>,
    succeed: (seq<RunJudgment>, ScoreResult) -> seq<Attempted<()>>,
    fail: Details -> seq<Attempted<()>>)

  ghost predicate JudgedOk(attempts: seq<Attempted<seq<Judgment>>>, qs: seq<FinalQuestion>, stored: set<string>) {
    ErrorsOk(attempts, stored) && forall k | 0 <= k < |attempts| && attempts[k].Done? :: JudgmentsOk(qs, attempts[k].value)
  }

  /** The activities keep their contracts; stored are the artifacts there are when the workflow ends. */
  ghost predicate ScriptOk(script: EvaluationScript, stored: set<string>) {
    && ErrorsOk(script.input, stored) && ErrorsOk(script.load, stored)
    && (forall run, qs :: JudgedOk(script.judge(run, qs), qs, stored))
    && forall votes, score :: ErrorsOk(script.succeed(votes, score), stored)
  }

  // ---------------------------------------------------------------- what a script amounts to

  const NO_CHECKLIST := Checklist("", Running, 0, "", "", None, Content([], [], [], []))

  function LoadedBy(script: EvaluationScript): Checklist {
    ValueOr(Answer(script.load), NO_CHECKLIST)
  }

  predicate CanBeJudged(c: Checklist) {
    c.status == Succeeded && ValidEvaluationRuns(c.evaluationRuns, c.evaluationRuns)
  }

  /** The judging activities over a list of questions, for runs 1, 2, ... */
  function Judges(script: EvaluationScript, qs: seq<FinalQuestion>, runs: nat): (asked: seq<seq<Attempted<seq<Judgment>>>>)
    ensures |asked| == runs
  {
    seq(runs, r requires 0 <= r < runs => script.judge(r + 1, qs))
  }

  function RunsOfLoaded(script: EvaluationScript): nat {
    if CanBeJudged(LoadedBy(script)) then LoadedBy(script).evaluationRuns else 0
  }

  function Judged(script: EvaluationScript): (answers: seq<Future<seq<Judgment>>>)
    ensures |answers| == RunsOfLoaded(script)
  {
    Answers(Judges(script, LoadedBy(script).content.questions, RunsOfLoaded(script)))
  }

  /** What an evaluation workflow sends: votes, and their score over the loaded checklist. */
  datatype ScoredVotes = ScoredVotes(votes: seq<RunJudgment>, score: ScoreResult)

  /** What this one sends, if it gets that far. */
  function SentBy(script: EvaluationScript): ScoredVotes {
    var qs, votes := LoadedBy(script).content.questions, Votes(Values(Judged(script), []));
    ScoredVotes(votes, if qs == [] then ScoreResult(0, 0, 0.0, []) else Aggregate(qs, votes, RunsOfLoaded(script)).score)
  }

  ghost predicate ScoredOver(s: ScoredVotes, loaded: Checklist) {
    && CanBeJudged(loaded)
    && Accepted(loaded.content.questions, s.votes, loaded.evaluationRuns)
    && s.score == Aggregate(loaded.content.questions, s.votes, loaded.evaluationRuns).score
  }

  /** Whether a stage lets the workflow go on; aggregating does, whatever was answered. */
  ghost predicate Passed(stage: Stage, script: EvaluationScript) {
    match stage
    case AtEvaluationInput => Answer(script.input).Success?
    case AtLoad => Answer(script.load).Success? && CanBeJudged(LoadedBy(script))
    case AtJudging => AllSucceeded(Judged(script))
    case AtEvaluationSuccess => Answer(script.succeed(SentBy(script).votes, SentBy(script).score)).Success?
    case _ => true
  }

  /** Every earlier stage was passed. */
  ghost predicate Cleared(stage: Stage, script: EvaluationScript) {
    forall earlier: Stage | earlier.Rank() < stage.Rank() :: Passed(earlier, script)
  }

  ghost predicate Completed(script: EvaluationScript) {
    Cleared(AtEvaluationSuccess, script) && Passed(AtEvaluationSuccess, script)
  }

  /** The first stage that was not passed, and its cause. */
  ghost predicate StoppedFor(stopped: Stopped, script: EvaluationScript) {
    Cleared(stopped.stage, script) && !Passed(stopped.stage, script) &&
    match stopped.stage
    case AtEvaluationInput => Answer(script.input) == Failure(stopped.cause)
    case AtLoad =>
      if Answer(script.load).Failure? then Answer(script.load) == Failure(stopped.cause) else stopped.cause == OwnError(OtherError)
    case AtJudging => FirstFailure(Judged(script), stopped.cause)
    case AtEvaluationSuccess => Answer(script.succeed(SentBy(script).votes, SentBy(script).score)) == Failure(stopped.cause)
    case _ => false
  }

  /** The attempts made up to the end of a stage. */
  function AttemptsThrough(stage: Stage, script: EvaluationScript): nat
    decreases stage.Rank()
  {
    match stage
    case AtEvaluationInput => Used(script.input)
    case AtLoad => AttemptsThrough(AtEvaluationInput, script) + Used(script.load)
    case AtJudging =>
      AttemptsThrough(AtLoad, script) + TotalUsed(Judges(script, LoadedBy(script).content.questions, RunsOfLoaded(script)))
    case AtScore => AttemptsThrough(AtJudging, script)
    case AtEvaluationSuccess => AttemptsThrough(AtScore, script) + Used(script.succeed(SentBy(script).votes, SentBy(script).score))
    case _ => 0
  }

  lemma ClearedNext(stage: Stage, next: Stage, script: EvaluationScript)
    requires next.Rank() == stage.Rank() + 1 && stage.OfEvaluation()
    ensures Cleared(next, script) <==> Cleared(stage, script) && Passed(stage, script)
  {
  }

  /** A script ends in exactly one way: two stops are the same stop, and what is completed does not stop. */
  lemma {:induction false} OneEnding(a: Stopped, b: Stopped, script: EvaluationScript)
    requires StoppedFor(a, script) && StoppedFor(b, script)
    ensures a == b && !Completed(script)
  {
    assert a.stage == b.stage by {
      assert a.stage.Rank() < b.stage.Rank() ==> Passed(a.stage, script);
      assert b.stage.Rank() < a.stage.Rank() ==> Passed(b.stage, script);
    }
    if a.stage == AtJudging {
      OneFirstFailure(Judged(script), a.cause, b.cause);
    }
  }

  /** Votes are sent exactly when the input was written, a checklist that can be judged was loaded, and every run answered. */
  lemma {:induction false} SendsIff(script: EvaluationScript)
    ensures Cleared(AtEvaluationSuccess, script) <==>
            && Answer(script.input).Success? && Answer(script.load).Success? && CanBeJudged(LoadedBy(script))
            && forall run | 1 <= run <= LoadedBy(script).evaluationRuns ::
                 Answer(script.judge(run, LoadedBy(script).content.questions)).Success?
  {
    EachPassed(script);
    if CanBeJudged(LoadedBy(script)) {
      AllJudged(script);
    }
  }

  lemma NotCleared(stopped: Stopped, script: EvaluationScript)
    requires StoppedFor(stopped, script) && stopped.stage != AtEvaluationSuccess
    ensures !Cleared(AtEvaluationSuccess, script)
  {
  }

  lemma EachPassed(script: EvaluationScript)
    ensures Cleared(AtEvaluationSuccess, script) <==>
            Passed(AtEvaluationInput, script) && Passed(AtLoad, script) && Passed(AtJudging, script)
  {
  }

  lemma {:induction false} AllJudged(script: EvaluationScript)
    requires CanBeJudged(LoadedBy(script))
    ensures AllSucceeded(Judged(script)) <==>
            forall run | 1 <= run <= LoadedBy(script).evaluationRuns ::
              Answer(script.judge(run, LoadedBy(script).content.questions)).Success?
  {
    var c := LoadedBy(script);
    assert forall r | 0 <= r < c.evaluationRuns :: Judged(script)[r] == Answer(script.judge(r + 1, c.content.questions));
    if AllSucceeded(Judged(script)) {
      forall run | 1 <= run <= c.evaluationRuns ensures Answer(script.judge(run, c.content.questions)).Success? {
        assert Judged(script)[run - 1].Success?;
      }
    }
  }

  /** Aggregation never rejects what was judged: the votes sent are accepted, with their score. */
  lemma {:induction false} SentIsScored(script: EvaluationScript, stored: set<string>)
    requires ScriptOk(script, stored) && Passed(AtLoad, script) && AllSucceeded(Judged(script))
    ensures ScoredOver(SentBy(script), LoadedBy(script))
  {
    var qs, judged := LoadedBy(script).content.questions, Values(Judged(script), []);
    forall r | 0 <= r < |judged| ensures JudgmentsOk(qs, judged[r]) {
      assert Judged(script)[r].Success?;
      assert JudgedOk(script.judge(r + 1, qs), qs, stored);
      AnsweredAt(script.judge(r + 1, qs));
    }
    JudgedIsAccepted(qs, judged);
  }

  lemma {:induction false} JudgedBy(script: EvaluationScript, run: nat)
    requires CanBeJudged(LoadedBy(script)) && AllSucceeded(Judged(script)) && 1 <= run <= LoadedBy(script).evaluationRuns
    ensures Answer(script.judge(run, LoadedBy(script).content.questions)) == Success(Values(Judged(script), [])[run - 1])
  {
    assert Judged(script)[run - 1] == Answer(script.judge(run, LoadedBy(script).content.questions));
  }

  /** The votes of a run are what judging answered for it, no more and no less. */
  lemma {:induction false} SentVotes(script: EvaluationScript, run: nat, j: Judgment)
    requires CanBeJudged(LoadedBy(script)) && AllSucceeded(Judged(script)) && 1 <= run <= LoadedBy(script).evaluationRuns
    ensures var answer := Answer(script.judge(run, LoadedBy(script).content.questions));
            answer.Success? && (RunJudgment(run, j.questionID, j.evidence, j.answer) in SentBy(script).votes <==> j in answer.value)
  {
    JudgedBy(script, run);
    VotesOfRun(Values(Judged(script), []), run, j);
  }

  lemma VotesOfRun(judged: seq<seq<Judgment>>, run: nat, j: Judgment)
    requires 1 <= run <= |judged|
    ensures RunJudgment(run, j.questionID, j.evidence, j.answer) in Votes(judged) <==> j in judged[run - 1]
  {
    BucketOfVotes(judged, run);
    BucketContents(Votes(judged), run, j);
  }

  /** The workflow's own error: a checklist was loaded that cannot be judged. */
  lemma {:induction false} OwnStop(s: Stopped, script: EvaluationScript)
    requires StoppedFor(s, script) && s.cause.OwnError?
    ensures s.stage == AtLoad && s.cause.e == OtherError && Answer(script.load).Success? && !CanBeJudged(Answer(script.load).value)
  {
  }

  /** A stopped workflow has a valid cause to record. */
  lemma {:induction false} StopIsRecordable(stopped: Stopped, script: EvaluationScript, stored: set<string>)
    requires ScriptOk(script, stored) && StoppedFor(stopped, script)
    ensures CauseOk(stopped.cause, stored)
  {
    match stopped.stage {
      case AtEvaluationInput => FailedAnswer(script.input, stored);
      case AtLoad =>
        if Answer(script.load).Failure? {
          FailedAnswer(script.load, stored);
        }
      case AtJudging =>
        var qs := LoadedBy(script).content.questions;
        var i :| 0 <= i < |Judged(script)| && Judged(script)[i] == Failure(stopped.cause);
        assert JudgedOk(script.judge(i + 1, qs), qs, stored);
        FailedAnswer(script.judge(i + 1, qs), stored);
      case AtEvaluationSuccess =>
        var sent := SentBy(script);
        assert ErrorsOk(script.succeed(sent.votes, sent.score), stored);
        FailedAnswer(script.succeed(sent.votes, sent.score), stored);
    }
  }

  /** However the workflow ends, its attempts are bounded by the runs it was to judge. */
  lemma {:induction false} AttemptsAreBounded(stage: Stage, script: EvaluationScript)
    ensures AttemptsThrough(stage, script) <= MAX_ATTEMPTS * ((if stage.Rank() < 4 then 2 else 3) + RunsOfLoaded(script))
    decreases stage.Rank()
  {
    TotalUsedBounded(Judges(script, LoadedBy(script).content.questions, RunsOfLoaded(script)));
    match stage {
      case AtScore => AttemptsAreBounded(AtJudging, script);
      case AtEvaluationSuccess => AttemptsAreBounded(AtScore, script);
      case _ =>
    }
  }

  // ---------------------------------------------------------------- the workflow

  method StartJudging(runs: nat, qs: seq<FinalQuestion>, script: EvaluationScript)
    returns (futures: seq<Future<seq<Judgment>>>, used: nat)
    ensures futures == Answers(Judges(script, qs, runs)) && used == TotalUsed(Judges(script, qs, runs))
  {
    ghost var asked := Judges(script, qs, runs);
    futures, used := [], 0;
    for run := 1 to runs + 1
      invariant |futures| == run - 1 && used == TotalUsed(asked[..run - 1])
      invariant forall r | 0 <= r < run - 1 :: futures[r] == Answer(asked[r])
    {
      TotalUsedStep(asked, run - 1);
      var future, n := ExecuteActivity(script.judge(run, qs));
      futures, used := futures + [future], used + n;
    }
    assert asked[..runs] == asked;
  }

  /** The nested loops that flatten the judgments into votes. */
  method CollectVotes(futures: seq<Future<seq<Judgment>>>) returns (r: Result<seq<RunJudgment>, Cause>)
    ensures r.Success? <==> AllSucceeded(futures)
    ensures r.Success? ==> r.value == Votes(Values(futures, []))
    ensures r.Failure? ==> FirstFailure(futures, r.error)
  {
    var votes := [];
    ghost var judged := Values(futures, []);
    for i := 0 to |futures|
      invariant AllSucceeded(futures[..i]) && votes == Votes(judged[..i])
    {
      match futures[i] {
        case Failure(cause) => return Failure(cause);
        case Success(js) =>
          for k := 0 to |js|
            invariant votes == Votes(judged[..i]) + Tagged(i + 1, js)[..k]
          {
            votes := votes + [RunJudgment(i + 1, js[k].questionID, js[k].evidence, js[k].answer)];
          }
          assert judged[..i + 1][..i] == judged[..i];
      }
    }
    assert judged[..|futures|] == judged && futures[..|futures|] == futures;
    r := Success(votes);
  }

  function AsErrorValue(e: CoreError): ErrorValue {
    match e
    case SemanticFailure(s) => CoreSemanticError(s)
    case PlainError => OtherError
  }

  /** Fan-out and fan-in of the judging runs. */
  method JudgeRuns(loaded: Checklist, script: EvaluationScript) returns (r: Result<seq<RunJudgment>, Stopped>, used: nat)
    requires Cleared(AtJudging, script) && loaded == LoadedBy(script)
    ensures r.Success? ==> AllSucceeded(Judged(script)) && r.value == Votes(Values(Judged(script), []))
    ensures r.Failure? ==> StoppedFor(r.error, script) && r.error.stage == AtJudging
    ensures AttemptsThrough(AtLoad, script) + used == AttemptsThrough(AtJudging, script)
  {
    assert Passed(AtLoad, script);
    var futures;
    futures, used := StartJudging(loaded.evaluationRuns, loaded.content.questions, script);
    var collected := CollectVotes(futures);
    match collected {
      case Failure(cause) =>
        OneFirstFailure(futures, cause, cause);
        return Failure(Stopped(AtJudging, cause)), used;
      case Success(votes) => return Success(votes), used;
    }
  }

  lemma ScoringIsFree(script: EvaluationScript)
    ensures AttemptsThrough(AtScore, script) == AttemptsThrough(AtJudging, script)
  {
  }

  /** Aggregating votes over the checklist they were made for never fails. */
  method AggregateVotes(loaded: Checklist, votes: seq<RunJudgment>, script: EvaluationScript, ghost stored: set<string>)
    returns (r: Result<ScoredVotes, Stopped>)
    requires ScriptOk(script, stored) && Passed(AtLoad, script) && AllSucceeded(Judged(script))
    requires loaded == LoadedBy(script) && votes == Votes(Values(Judged(script), []))
    ensures r == Success(SentBy(script)) && ScoredOver(SentBy(script), loaded)
  {
    SentIsScored(script, stored);
    var aggregated := AggregateJudgments(loaded.content.questions, votes, loaded.evaluationRuns);
    match aggregated {
      case Failure(e) => return Failure(Stopped(AtScore, OwnError(AsErrorValue(e))));
      case Success(a) => return Success(ScoredVotes(votes, a.score));
    }
  }

  /** Judging and aggregating a loaded checklist: only a judging activity can stop it. */
  method JudgeAll(loaded: Checklist, script: EvaluationScript, ghost stored: set<string>)
    returns (r: Result<ScoredVotes, Stopped>, used: nat)
    requires ScriptOk(script, stored) && Cleared(AtJudging, script) && loaded == LoadedBy(script)
    ensures r.Success? ==> Cleared(AtEvaluationSuccess, script) && r.value == SentBy(script) && ScoredOver(r.value, loaded)
    ensures r.Failure? ==> StoppedFor(r.error, script) && r.error.stage == AtJudging
    ensures AttemptsThrough(AtLoad, script) + used == AttemptsThrough(if r.Success? then AtScore else r.error.stage, script)
  {
    ScoringIsFree(script);
    var judged;
    judged, used := JudgeRuns(loaded, script);
    match judged {
      case Failure(s) => return Failure(s), used;
      case Success(votes) =>
        assert Passed(AtLoad, script);
        EachPassed(script);
        r := AggregateVotes(loaded, votes, script, stored);
    }
  }

  /** The input is written and the checklist loaded, and it must be one that can be judged. */
  method LoadForJudging(script: EvaluationScript) returns (r: Result<Checklist, Stopped>, loaded: Option<Checklist>, used: nat)
    ensures loaded == if Answer(script.input).Success? && Answer(script.load).Success? then Some(LoadedBy(script)) else None
    ensures r.Success? ==> Cleared(AtJudging, script) && r.value == LoadedBy(script)
    ensures r.Failure? ==> StoppedFor(r.error, script) && r.error.stage in {AtEvaluationInput, AtLoad}
    ensures used == AttemptsThrough(if r.Success? then AtLoad else r.error.stage, script)
  {
    ClearedNext(AtEvaluationInput, AtLoad, script);
    ClearedNext(AtLoad, AtJudging, script);
    loaded := None;
    var written, n := ExecuteActivity(script.input);
    used := n;
    if written.Failure? {
      return Failure(Stopped(AtEvaluationInput, written.error)), loaded, used;
    }
    var checklist;
    checklist, n := ExecuteActivity(script.load);
    used := used + n;
    match checklist {
      case Failure(cause) => return Failure(Stopped(AtLoad, cause)), loaded, used;
      case Success(c) =>
        loaded := Some(c);
        if c.status != Succeeded {
          return Failure(Stopped(AtLoad, OwnError(OtherError))), loaded, used;
        }
        if !ValidEvaluationRuns(c.evaluationRuns, c.evaluationRuns) {
          return Failure(Stopped(AtLoad, OwnError(OtherError))), loaded, used;
        }
        return Success(c), loaded, used;
    }
  }

  /** From the input to the scored votes. */
  method ScoreAnswer(script: EvaluationScript, ghost stored: set<string>)
    returns (r: Result<ScoredVotes, Stopped>, loaded: Option<Checklist>, used: nat)
    requires ScriptOk(script, stored)
    ensures loaded == if Answer(script.input).Success? && Answer(script.load).Success? then Some(LoadedBy(script)) else None
    ensures r.Success? ==> Cleared(AtEvaluationSuccess, script) && r.value == SentBy(script) && ScoredOver(r.value, LoadedBy(script))
    ensures r.Failure? ==> StoppedFor(r.error, script) && r.error.stage in {AtEvaluationInput, AtLoad, AtJudging}
    ensures used == AttemptsThrough(if r.Success? then AtScore else r.error.stage, script)
  {
    var found;
    found, loaded, used := LoadForJudging(script);
    match found {
      case Failure(s) => return Failure(s), loaded, used;
      case Success(c) =>
        var n;
        r, n := JudgeAll(c, script, stored);
        used := used + n;
    }
  }

  /** The stage a workflow ends in. */
  function EndStage(stopped: Option<Stopped>): Stage {
    if stopped.Some? then stopped.value.stage else AtEvaluationSuccess
  }

  /** The activity that stores the votes and their score. */
  method StoreScore(sent: ScoredVotes, script: EvaluationScript) returns (stopped: Option<Stopped>, used: nat)
    requires Cleared(AtEvaluationSuccess, script) && sent == SentBy(script)
    ensures stopped.None? <==> Completed(script)
    ensures stopped.Some? ==> StoppedFor(stopped.value, script) && stopped.value.stage == AtEvaluationSuccess
    ensures AttemptsThrough(AtScore, script) + used == AttemptsThrough(AtEvaluationSuccess, script)
  {
    var ended;
    ended, used := ExecuteActivity(script.succeed(sent.votes, sent.score));
    stopped := if ended.Failure? then Some(Stopped(AtEvaluationSuccess, ended.error)) else None;
  }

  /** Scoring, and storing the score. */
  method ScoreAndStore(script: EvaluationScript, ghost stored: set<string>)
    returns (loaded: Option<Checklist>, sent: Option<ScoredVotes>, stopped: Option<Stopped>, used: nat)
    requires ScriptOk(script, stored)
    ensures loaded == if Answer(script.input).Success? && Answer(script.load).Success? then Some(LoadedBy(script)) else None
    ensures sent == if Cleared(AtEvaluationSuccess, script) then Some(SentBy(script)) else None
    ensures sent.Some? ==> ScoredOver(sent.value, LoadedBy(script))
    ensures stopped.None? <==> Completed(script)
    ensures stopped.Some? ==> StoppedFor(stopped.value, script)
    ensures used == AttemptsThrough(EndStage(stopped), script)
  {
    var scored;
    scored, loaded, used := ScoreAnswer(script, stored);
    match scored {
      case Failure(s) =>
        NotCleared(s, script);
        sent, stopped := None, Some(s);
      case Success(s) =>
        sent := Some(s);
        var n;
        stopped, n := StoreScore(s, script);
        used := used + n;
    }
  }

  /** What an evaluation workflow returns, loads, sends, stops for and uses up: all decided by the script. */
  ghost predicate EvaluationEnds(evaluationID: string, script: EvaluationScript, verdict: Verdict, loaded: Option<Checklist>,
                                 sent: Option<ScoredVotes>, stopped: Option<Stopped>, used: nat)
  {
    && loaded == (if Answer(script.input).Success? && Answer(script.load).Success? then Some(LoadedBy(script)) else None)
    && sent == (if Cleared(AtEvaluationSuccess, script) then Some(SentBy(script)) else None)
    && (stopped.None? <==> Completed(script)) && (verdict.Nil? <==> stopped.None?)
    && match stopped
       case None => used == AttemptsThrough(AtEvaluationSuccess, script)
       case Some(s) =>
         var d := WorkflowDetails(s.cause, EvaluationWorkflowID(evaluationID), s.stage.Name());
         && StoppedFor(s, script)
         && verdict == (if Answer(script.fail(d)).Success? then Recorded(d) else NotRecorded)
         && used == AttemptsThrough(s.stage, script) + Used(script.fail(d))
  }

  /** nil exactly when every stage was passed, the last one by the activity that stores the votes and their score. Otherwise
      the first stage that was not passed, never the aggregation, is recorded with a record the store accepts, and its cause
      is returned exactly when that was stored. Bounded attempts in every case. */
  method EvaluateAnswerWorkflow(evaluationID: string, script: EvaluationScript, ghost stored: set<string>)
    returns (verdict: Verdict, loaded: Option<Checklist>, sent: Option<ScoredVotes>, stopped: Option<Stopped>, used: nat)
    requires ScriptOk(script, stored)
    ensures EvaluationEnds(evaluationID, script, verdict, loaded, sent, stopped, used)
    ensures sent.Some? ==> loaded.Some? && ScoredOver(sent.value, loaded.value)
    ensures stopped.Some? ==> stopped.value.stage != AtScore
    ensures verdict.Recorded? ==> RecordOk(verdict.details, stored)
    ensures used <= MAX_ATTEMPTS * (4 + if loaded.Some? && CanBeJudged(loaded.value) then loaded.value.evaluationRuns else 0)
  {
    loaded, sent, stopped, used := ScoreAndStore(script, stored);
    EndIsBounded(stopped, script);
    LoadIsCleared(script);
    match stopped {
      case None => verdict := Nil;
      case Some(s) =>
        StopIsRecordable(s, script, stored);
        var n;
        verdict, n := RecordFailure(EvaluationWorkflowID(evaluationID), s, script.fail, stored);
        used := used + n;
    }
  }

  lemma LoadIsCleared(script: EvaluationScript)
    ensures Cleared(AtEvaluationSuccess, script) ==> Answer(script.input).Success? && Answer(script.load).Success?
  {
    EachPassed(script);
  }

  lemma {:induction false} EndIsBounded(stopped: Option<Stopped>, script: EvaluationScript)
    requires stopped.None? ==> Completed(script)
    requires stopped.Some? ==> StoppedFor(stopped.value, script)
    ensures var loaded := Answer(script.input).Success? && Answer(script.load).Success?;
            AttemptsThrough(EndStage(stopped), script) <= MAX_ATTEMPTS * (3 + if loaded then RunsOfLoaded(script) else 0)
  {
    AttemptsAreBounded(EndStage(stopped), script);
    var stage := EndStage(stopped);
    assert stage.Rank() > AtEvaluationInput.Rank() ==> Passed(AtEvaluationInput, script);
    assert stage.Rank() > AtLoad.Rank() ==> Passed(AtLoad, script);
  }

  /** The script leaves no choice: verdict, loaded checklist, votes, stop and number of attempts are all determined. */
  lemma {:induction false} EndIsUnique(evaluationID: string, script: EvaluationScript,
                                       verdict: Verdict, loaded: Option<Checklist>, sent: Option<ScoredVotes>,
                                       stopped: Option<Stopped>, used: nat,
                                       verdict': Verdict, loaded': Option<Checklist>, sent': Option<ScoredVotes>,
                                       stopped': Option<Stopped>, used': nat)
    requires EvaluationEnds(evaluationID, script, verdict, loaded, sent, stopped, used)
    requires EvaluationEnds(evaluationID, script, verdict', loaded', sent', stopped', used')
    ensures verdict == verdict' && loaded == loaded' && sent == sent' && stopped == stopped' && used == used'
  {
    if stopped.Some? && stopped'.Some? {
      OneEnding(stopped.value, stopped'.value, script);
    }
  }

  /** Whatever record a workflow leaves is one the store accepts, follows its class and refers to stored artifacts only. */
  lemma {:induction false} RecordedIsOk(evaluationID: string, script: EvaluationScript, stored: set<string>, verdict: Verdict,
                                        loaded: Option<Checklist>, sent: Option<ScoredVotes>, stopped: Option<Stopped>, used: nat)
    requires ScriptOk(script, stored) && EvaluationEnds(evaluationID, script, verdict, loaded, sent, stopped, used)
    ensures verdict.Recorded? ==> RecordOk(verdict.details, stored)
  {
    if stopped.Some? {
      StopIsRecordable(stopped.value, script, stored);
      stopped.value.stage.NameIsNotBlank();
      WorkflowDetailsOk(stopped.value.cause, stored, EvaluationWorkflowID(evaluationID), stopped.value.stage.Name());
    }
  }
}
