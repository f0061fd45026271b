/** The layers together: a workflow whose attempts are the activities', whose artifacts are those of a run of writes, and
    whose terminal activities are calls in a history of the protocol. */
module Whole {
  import opened Common
  import opened Types
  import opened Failures
  import opened Database
  import opened Calls
  import opened Linear
  import opened Protocol
  import opened Evidence
  import opened Workflows
  import opened Endings
  import opened Scripts
  import opened Scoring
  import CreateChecklist
  import EvaluateAnswer

  lemma EndingInHistory(run: seq<World>, i: nat, x: nat)
    requires History(run) && i < |run| && x in run[i].endings
    ensures EndingOk(run[i].endings[x], Current(run[i].base))
  {
    HistoryIsGood(run, i);
  }

  // ---------------------------------------------------------------- checklists

  function ChecklistRecord(checklistID: string, s: Stopped): Details {
    WorkflowDetails(s.cause, ChecklistWorkflowID(checklistID), s.stage.Name())
  }

  /** What the workflow is told of a terminal activity is what was heard of it. */
  ghost predicate HeardInChecklist(p: Phase, script: CreateChecklist.ChecklistScript) {
    match p.call
    case SucceedChecklist(_, c, _) => p.heard == script.succeed(c)
    case FailChecklist(_, d) => p.heard == script.fail(d)
    case _ => false
  }

  /** The workflow's last activities are those of the ending: it starts with sending its payload, if it has one, and otherwise
      with recording why not. */
  ghost predicate PlaysChecklist(e: Ending, checklistID: string, limits: ChecklistLimits, script: CreateChecklist.ChecklistScript,
                                 payload: Option<Content>, stopped: Option<Stopped>)
  {
    && First(e).call == (if payload.Some? then SucceedChecklist(checklistID, payload.value, limits)
                         else if stopped.Some? then FailChecklist(checklistID, ChecklistRecord(checklistID, stopped.value))
                         else First(e).call)
    && HeardInChecklist(e.now, script) && (e.tried.Some? ==> HeardInChecklist(e.tried.value, script))
  }

  lemma {:induction false} StopsAtSuccess(checklistID: string, limits: ChecklistLimits, script: CreateChecklist.ChecklistScript, s: Stopped)
    requires CreateChecklist.StoppedFor(s, checklistID, limits, script)
    ensures CreateChecklist.Cleared(AtChecklistSuccess, limits, script) <==> s.stage == AtChecklistSuccess
  {
    if s.stage.Rank() < AtChecklistSuccess.Rank() {
      CreateChecklist.NotCleared(s.stage, limits, script);
    }
  }

  /** Without a payload, the ending is that of the record. */
  lemma {:induction false} NothingSent(e: Ending, db: Db, checklistID: string, limits: ChecklistLimits,
                                       script: CreateChecklist.ChecklistScript, s: Stopped, verdict: Verdict)
    requires EndingOk(e, db) && e.returned.Some? && PlaysChecklist(e, checklistID, limits, script, None, Some(s))
    requires var d := ChecklistRecord(checklistID, s);
             verdict == if Answer(script.fail(d)).Success? then Recorded(d) else NotRecorded
    ensures VerdictOf(e, verdict) && (verdict.Recorded? ==> e.now.call == FailChecklist(checklistID, verdict.details))
  {
  }

  /** The verdict of a workflow is what its ending returned. */
  ghost predicate VerdictOf(e: Ending, verdict: Verdict) {
    e.returned.Some? &&
    match verdict
    case Nil => e.returned.value == ReturnedNil
    case Recorded(_) => e.returned.value == ReturnedCause
    case NotRecorded => e.returned.value == ReturnedError
  }

  /** With a payload, the ending is first that of the payload, and only if this failed for good that of the record. */
  lemma {:induction false} PayloadSent(e: Ending, db: Db, checklistID: string, limits: ChecklistLimits,
                                       script: CreateChecklist.ChecklistScript, c: Content, stopped: Option<Stopped>, verdict: Verdict)
    requires EndingOk(e, db) && e.returned.Some? && PlaysChecklist(e, checklistID, limits, script, Some(c), stopped)
    requires stopped.None? <==> Answer(script.succeed(c)).Success?
    requires stopped.Some? ==> stopped.value.stage == AtChecklistSuccess && Answer(script.succeed(c)) == Failure(stopped.value.cause)
    requires verdict.Nil? <==> stopped.None?
    requires stopped.Some? ==> var d := ChecklistRecord(checklistID, stopped.value);
                               verdict == if Answer(script.fail(d)).Success? then Recorded(d) else NotRecorded
    ensures VerdictOf(e, verdict)
    ensures verdict.Nil? ==> e.now.call == SucceedChecklist(checklistID, c, limits)
    ensures verdict.Recorded? ==> e.now.call == FailChecklist(checklistID, verdict.details)
  {
    if e.tried.Some? {
      assert First(e).heard == script.succeed(c);
      assert e.now.call == FailChecklist(checklistID, ChecklistRecord(checklistID, stopped.value));
    } else {
      assert e.now.heard == script.succeed(c);
    }
  }

  lemma {:induction false} ChecklistVerdict(e: Ending, db: Db, checklistID: string, limits: ChecklistLimits,
                                            script: CreateChecklist.ChecklistScript, verdict: Verdict, payload: Option<Content>,
                                            stopped: Option<Stopped>, used: nat)
    requires CreateChecklist.ChecklistEnds(checklistID, limits, script, verdict, payload, stopped, used)
    requires EndingOk(e, db) && e.returned.Some? && PlaysChecklist(e, checklistID, limits, script, payload, stopped)
    ensures VerdictOf(e, verdict)
    ensures verdict.Nil? ==> payload.Some? && e.now.call == SucceedChecklist(checklistID, payload.value, limits)
    ensures verdict.Recorded? ==> e.now.call == FailChecklist(checklistID, verdict.details)
  {
    EndOfChecklist(checklistID, limits, script, verdict, payload, stopped, used);
    if payload.Some? {
      PayloadSent(e, db, checklistID, limits, script, payload.value, stopped, verdict);
    } else {
      NothingSent(e, db, checklistID, limits, script, stopped.value, verdict);
    }
  }

  /** What the end of a checklist workflow says about its last activities. */
  lemma {:induction false} EndOfChecklist(checklistID: string, limits: ChecklistLimits, script: CreateChecklist.ChecklistScript,
                                          verdict: Verdict, payload: Option<Content>, stopped: Option<Stopped>, used: nat)
    requires CreateChecklist.ChecklistEnds(checklistID, limits, script, verdict, payload, stopped, used)
    ensures verdict.Nil? <==> stopped.None?
    ensures stopped.Some? ==> var d := ChecklistRecord(checklistID, stopped.value);
                              verdict == if Answer(script.fail(d)).Success? then Recorded(d) else NotRecorded
    ensures payload.None? ==> stopped.Some?
    ensures payload.Some? ==>
              && (stopped.None? <==> Answer(script.succeed(payload.value)).Success?)
              && (stopped.Some? ==> && stopped.value.stage == AtChecklistSuccess
                                    && Answer(script.succeed(payload.value)) == Failure(stopped.value.cause))
  {
    if stopped.Some? {
      StopsAtSuccess(checklistID, limits, script, stopped.value);
    }
  }

  lemma {:induction false} ChecklistReturns(run: seq<World>, i: nat, j: nat, x: nat, checklistID: string, limits: ChecklistLimits,
                                            script: CreateChecklist.ChecklistScript,
                                            verdict: Verdict, payload: Option<Content>, stopped: Option<Stopped>, used: nat)
    requires History(run) && i <= j < |run| && x in run[i].endings && run[i].endings[x].returned.Some?
    requires CreateChecklist.ChecklistEnds(checklistID, limits, script, verdict, payload, stopped, used)
    requires PlaysChecklist(run[i].endings[x], checklistID, limits, script, payload, stopped)
    ensures VerdictOf(run[i].endings[x], verdict)
    ensures verdict.Nil? ==> payload.Some? && Effective(SucceedChecklist(checklistID, payload.value, limits), Current(run[j].base))
    ensures verdict.Recorded? ==> Effective(FailChecklist(checklistID, verdict.details), Current(run[j].base))
  {
    EndingInHistory(run, i, x);
    ChecklistVerdict(run[i].endings[x], Current(run[i].base), checklistID, limits, script, verdict, payload, stopped, used);
    ReturnMeansStored(run, i, j, x);
  }

  /** The checklist workflow over the whole system. Its script comes from the activities, its artifacts from a run of writes
      that may go on after it, and its terminal activities from a history of the protocol. Then nil means a succeeded row with
      exactly the payload its activities amount to, and a returned cause means a failed row with a record the store accepts,
      whose retry flag follows its class, and all of whose references are stored: at that moment and at every later one. */
  lemma {:induction false} ChecklistWorkflowIsSafe(run: seq<World>, i: nat, j: nat, x: nat, writes: seq<StoreWrite>,
                                                   later: seq<StoreWrite>, checklistID: string, limits: ChecklistLimits,
                                                   script: CreateChecklist.ChecklistScript,
                                                   verdict: Verdict, payload: Option<Content>, stopped: Option<Stopped>, used: nat)
    requires History(run) && i <= j < |run| && x in run[i].endings && run[i].endings[x].returned.Some?
    requires WellBehaved(later) && writes <= later && ChecklistScriptFrom(script, checklistID, limits, writes)
    requires CreateChecklist.ChecklistEnds(checklistID, limits, script, verdict, payload, stopped, used)
    requires PlaysChecklist(run[i].endings[x], checklistID, limits, script, payload, stopped)
    ensures VerdictOf(run[i].endings[x], verdict)
    ensures verdict.Nil? ==> payload.Some? && Effective(SucceedChecklist(checklistID, payload.value, limits), Current(run[j].base))
    ensures verdict.Recorded? ==>
              Effective(FailChecklist(checklistID, verdict.details), Current(run[j].base))
              && RecordOk(verdict.details, AfterWrites(later).Keys)
  {
    ChecklistReturns(run, i, j, x, checklistID, limits, script, verdict, payload, stopped, used);
    ChecklistRecordLasts(writes, later, checklistID, limits, script, verdict, payload, stopped, used);
  }

  lemma {:induction false} WritesStayWellBehaved(writes: seq<StoreWrite>, later: seq<StoreWrite>)
    requires WellBehaved(later) && writes <= later
    ensures WellBehaved(writes)
    ensures AfterWrites(writes).Keys <= AfterWrites(later).Keys
  {
    assert writes == later[..|writes|];
    forall key | key in AfterWrites(writes) ensures key in AfterWrites(later) {
      EvidenceIsAppendOnly(later, |writes|, key);
    }
  }

  lemma RecordStaysOk(d: Details, stored: set<string>, more: set<string>)
    requires RecordOk(d, stored) && stored <= more
    ensures RecordOk(d, more)
  {
  }

  lemma {:induction false} ChecklistRecordLasts(writes: seq<StoreWrite>, later: seq<StoreWrite>, checklistID: string,
                                                limits: ChecklistLimits,
                                                script: CreateChecklist.ChecklistScript, verdict: Verdict, payload: Option<Content>,
                                                stopped: Option<Stopped>, used: nat)
    requires WellBehaved(later) && writes <= later && ChecklistScriptFrom(script, checklistID, limits, writes)
    requires CreateChecklist.ChecklistEnds(checklistID, limits, script, verdict, payload, stopped, used)
    ensures verdict.Recorded? ==> RecordOk(verdict.details, AfterWrites(later).Keys)
  {
    WritesStayWellBehaved(writes, later);
    ChecklistScriptIsOk(script, checklistID, limits, writes);
    CreateChecklist.RecordedIsOk(checklistID, limits, script, AfterWrites(writes).Keys, verdict, payload, stopped, used);
    if verdict.Recorded? {
      RecordStaysOk(verdict.details, AfterWrites(writes).Keys, AfterWrites(later).Keys);
    }
  }

  // ---------------------------------------------------------------- evaluations

  function EvaluationRecord(evaluationID: string, s: Stopped): Details {
    WorkflowDetails(s.cause, EvaluationWorkflowID(evaluationID), s.stage.Name())
  }

  ghost predicate HeardInEvaluation(p: Phase, script: EvaluateAnswer.EvaluationScript) {
    match p.call
    case SucceedEvaluation(_, _, votes, score) => p.heard == script.succeed(votes, score)
    case FailEvaluation(_, _, d) => p.heard == script.fail(d)
    case _ => false
  }

  ghost predicate PlaysEvaluation(e: Ending, evaluationID: string, checklistID: string, script: EvaluateAnswer.EvaluationScript,
                                  sent: Option<EvaluateAnswer.ScoredVotes>, stopped: Option<Stopped>)
  {
    && First(e).call == (if sent.Some? then SucceedEvaluation(evaluationID, checklistID, sent.value.votes, sent.value.score)
                         else if stopped.Some? then
                           FailEvaluation(evaluationID, checklistID, EvaluationRecord(evaluationID, stopped.value))
                         else First(e).call)
    && HeardInEvaluation(e.now, script) && (e.tried.Some? ==> HeardInEvaluation(e.tried.value, script))
  }

  lemma {:induction false} StopsAtEvaluationSuccess(script: EvaluateAnswer.EvaluationScript, s: Stopped)
    requires EvaluateAnswer.StoppedFor(s, script)
    ensures EvaluateAnswer.Cleared(AtEvaluationSuccess, script) <==> s.stage == AtEvaluationSuccess
  {
    if s.stage != AtEvaluationSuccess {
      EvaluateAnswer.NotCleared(s, script);
    }
  }

  lemma {:induction false} NoVotesSent(e: Ending, db: Db, evaluationID: string, checklistID: string,
                                       script: EvaluateAnswer.EvaluationScript, s: Stopped, verdict: Verdict)
    requires EndingOk(e, db) && e.returned.Some? && PlaysEvaluation(e, evaluationID, checklistID, script, None, Some(s))
    requires var d := EvaluationRecord(evaluationID, s);
             verdict == if Answer(script.fail(d)).Success? then Recorded(d) else NotRecorded
    ensures VerdictOf(e, verdict)
    ensures verdict.Recorded? ==> e.now.call == FailEvaluation(evaluationID, checklistID, verdict.details)
  {
  }

  lemma {:induction false} VotesSent(e: Ending, db: Db, evaluationID: string, checklistID: string, script: EvaluateAnswer.EvaluationScript,
                                     sent: EvaluateAnswer.ScoredVotes, stopped: Option<Stopped>, verdict: Verdict)
    requires EndingOk(e, db) && e.returned.Some? && PlaysEvaluation(e, evaluationID, checklistID, script, Some(sent), stopped)
    requires stopped.None? <==> Answer(script.succeed(sent.votes, sent.score)).Success?
    requires stopped.Some? ==> && stopped.value.stage == AtEvaluationSuccess
                               && Answer(script.succeed(sent.votes, sent.score)) == Failure(stopped.value.cause)
    requires verdict.Nil? <==> stopped.None?
    requires stopped.Some? ==> var d := EvaluationRecord(evaluationID, stopped.value);
                               verdict == if Answer(script.fail(d)).Success? then Recorded(d) else NotRecorded
    ensures VerdictOf(e, verdict)
    ensures verdict.Nil? ==> e.now.call == SucceedEvaluation(evaluationID, checklistID, sent.votes, sent.score)
    ensures verdict.Recorded? ==> e.now.call == FailEvaluation(evaluationID, checklistID, verdict.details)
  {
    if e.tried.Some? {
      assert First(e).heard == script.succeed(sent.votes, sent.score);
      assert e.now.call == FailEvaluation(evaluationID, checklistID, EvaluationRecord(evaluationID, stopped.value));
    } else {
      assert e.now.heard == script.succeed(sent.votes, sent.score);
    }
  }

  lemma {:induction false} EvaluationVerdict(e: Ending, db: Db, evaluationID: string, checklistID: string,
                                             script: EvaluateAnswer.EvaluationScript, verdict: Verdict, loaded: Option<Checklist>,
                                             sent: Option<EvaluateAnswer.ScoredVotes>, stopped: Option<Stopped>, used: nat)
    requires EvaluateAnswer.EvaluationEnds(evaluationID, script, verdict, loaded, sent, stopped, used)
    requires EndingOk(e, db) && e.returned.Some? && PlaysEvaluation(e, evaluationID, checklistID, script, sent, stopped)
    ensures VerdictOf(e, verdict)
    ensures verdict.Nil? ==>
              sent.Some? && e.now.call == SucceedEvaluation(evaluationID, checklistID, sent.value.votes, sent.value.score)
    ensures verdict.Recorded? ==> e.now.call == FailEvaluation(evaluationID, checklistID, verdict.details)
  {
    if stopped.Some? {
      StopsAtEvaluationSuccess(script, stopped.value);
    }
    if sent.Some? {
      VotesSent(e, db, evaluationID, checklistID, script, sent.value, stopped, verdict);
    } else {
      NoVotesSent(e, db, evaluationID, checklistID, script, stopped.value, verdict);
    }
  }

  lemma {:induction false} EvaluationRecordLasts(writes: seq<StoreWrite>, later: seq<StoreWrite>, evaluationID: string,
                                                 checklistID: string, loads: seq<Checklist>,
                                                 script: EvaluateAnswer.EvaluationScript, verdict: Verdict, loaded: Option<Checklist>,
                                                 sent: Option<EvaluateAnswer.ScoredVotes>, stopped: Option<Stopped>, used: nat)
    requires WellBehaved(later) && writes <= later && EvaluationScriptFrom(script, evaluationID, checklistID, loads, writes)
    requires EvaluateAnswer.EvaluationEnds(evaluationID, script, verdict, loaded, sent, stopped, used)
    ensures verdict.Recorded? ==> RecordOk(verdict.details, AfterWrites(later).Keys)
  {
    WritesStayWellBehaved(writes, later);
    EvaluationScriptIsOk(script, evaluationID, checklistID, loads, writes);
    EvaluateAnswer.RecordedIsOk(evaluationID, script, AfterWrites(writes).Keys, verdict, loaded, sent, stopped, used);
    if verdict.Recorded? {
      RecordStaysOk(verdict.details, AfterWrites(writes).Keys, AfterWrites(later).Keys);
    }
  }

  lemma {:induction false} ClearedIsScored(script: EvaluateAnswer.EvaluationScript, stored: set<string>)
    requires EvaluateAnswer.ScriptOk(script, stored) && EvaluateAnswer.Cleared(AtEvaluationSuccess, script)
    ensures Answer(script.input).Success? && Answer(script.load).Success?
    ensures EvaluateAnswer.ScoredOver(EvaluateAnswer.SentBy(script), EvaluateAnswer.LoadedBy(script))
  {
    EvaluateAnswer.EachPassed(script);
    EvaluateAnswer.SentIsScored(script, stored);
  }

  lemma {:induction false} SentOverLoaded(evaluationID: string, script: EvaluateAnswer.EvaluationScript, stored: set<string>,
                                          verdict: Verdict, loaded: Option<Checklist>, sent: Option<EvaluateAnswer.ScoredVotes>,
                                          stopped: Option<Stopped>, used: nat)
    requires EvaluateAnswer.ScriptOk(script, stored)
    requires EvaluateAnswer.EvaluationEnds(evaluationID, script, verdict, loaded, sent, stopped, used)
    ensures sent.Some? ==> loaded.Some? && EvaluateAnswer.ScoredOver(sent.value, loaded.value)
  {
    if sent.Some? {
      ClearedIsScored(script, stored);
    }
  }

  /** What was loaded is one of the loads, and what is sent was scored over it. */
  lemma {:induction false} SentOverLoad(writes: seq<StoreWrite>, evaluationID: string, checklistID: string, loads: seq<Checklist>,
                                        script: EvaluateAnswer.EvaluationScript, verdict: Verdict, loaded: Option<Checklist>,
                                        sent: Option<EvaluateAnswer.ScoredVotes>, stopped: Option<Stopped>, used: nat)
    requires WellBehaved(writes) && EvaluationScriptFrom(script, evaluationID, checklistID, loads, writes)
    requires EvaluateAnswer.EvaluationEnds(evaluationID, script, verdict, loaded, sent, stopped, used)
    ensures loaded.Some? ==> loaded.value in loads
    ensures sent.Some? ==> loaded.Some? && EvaluateAnswer.ScoredOver(sent.value, loaded.value)
  {
    EvaluationScriptIsOk(script, evaluationID, checklistID, loads, writes);
    SentOverLoaded(evaluationID, script, AfterWrites(writes).Keys, verdict, loaded, sent, stopped, used);
  }

  lemma {:induction false} StopAfterLoad(evaluationID: string, script: EvaluateAnswer.EvaluationScript, verdict: Verdict,
                                         loaded: Option<Checklist>, sent: Option<EvaluateAnswer.ScoredVotes>,
                                         stopped: Option<Stopped>, used: nat)
    requires EvaluateAnswer.EvaluationEnds(evaluationID, script, verdict, loaded, sent, stopped, used)
    requires loaded.Some? ==> EvaluateAnswer.CanBeJudged(loaded.value)
    ensures loaded.Some? && stopped.Some? ==> stopped.value.stage in {AtJudging, AtEvaluationSuccess}
  {
  }

  /** The cause of an activity nothing but broken connections, missing rows and other ends were heard of. */
  ghost predicate PlainCause(cause: Cause) {
    cause == NoDetails || exists n :: cause == FromActivity(ToTemporalError(OtherError, n, []))
  }

  lemma {:induction false} PlainlyHeardCause(heard: seq<Attempted<()>>)
    requires PlainlyHeard(heard) && Answer(heard).Failure?
    ensures PlainCause(Answer(heard).error)
  {
    var last := Used(heard) - 1;
    if last < |heard| && heard[last].Errored? {
      assert heard[last].error == ToTemporalError(OtherError, last + 1, []);
    }
  }

  lemma {:induction false} StopAtSuccess(e: Ending, evaluationID: string, checklistID: string, script: EvaluateAnswer.EvaluationScript,
                                         verdict: Verdict, loaded: Option<Checklist>, sent: Option<EvaluateAnswer.ScoredVotes>,
                                         s: Stopped, used: nat)
    requires EvaluateAnswer.EvaluationEnds(evaluationID, script, verdict, loaded, sent, Some(s), used) && s.stage == AtEvaluationSuccess
    requires PlaysEvaluation(e, evaluationID, checklistID, script, sent, Some(s))
    ensures sent.Some? && First(e).heard == script.succeed(sent.value.votes, sent.value.score)
    ensures Answer(First(e).heard) == Failure(s.cause)
  {
    StopsAtEvaluationSuccess(script, s);
    assert sent == Some(EvaluateAnswer.SentBy(script));
  }

  lemma {:induction false} EvaluationReturns(run: seq<World>, i: nat, j: nat, x: nat, evaluationID: string, checklistID: string,
                                             script: EvaluateAnswer.EvaluationScript, verdict: Verdict, loaded: Option<Checklist>,
                                             sent: Option<EvaluateAnswer.ScoredVotes>, stopped: Option<Stopped>, used: nat)
    requires History(run) && i <= j < |run| && x in run[i].endings && run[i].endings[x].returned.Some?
    requires EvaluateAnswer.EvaluationEnds(evaluationID, script, verdict, loaded, sent, stopped, used)
    requires PlaysEvaluation(run[i].endings[x], evaluationID, checklistID, script, sent, stopped)
    ensures VerdictOf(run[i].endings[x], verdict)
    ensures verdict.Nil? ==>
              && sent.Some?
              && Effective(SucceedEvaluation(evaluationID, checklistID, sent.value.votes, sent.value.score), Current(run[j].base))
    ensures verdict.Recorded? ==> Effective(FailEvaluation(evaluationID, checklistID, verdict.details), Current(run[j].base))
  {
    EndingInHistory(run, i, x);
    EvaluationVerdict(run[i].endings[x], Current(run[i].base), evaluationID, checklistID, script, verdict, loaded, sent, stopped, used);
    ReturnMeansStored(run, i, j, x);
  }

  /** The workflow goes on with what it loaded, and its score is never rejected. */
  lemma {:induction false} ScoreIsSafe(run: seq<World>, a: nat, i: nat, x: nat, evaluationID: string, checklistID: string,
                                       script: EvaluateAnswer.EvaluationScript, verdict: Verdict, loaded: Option<Checklist>,
                                       sent: Option<EvaluateAnswer.ScoredVotes>, stopped: Option<Stopped>, used: nat)
    requires History(run) && a <= i < |run| && x in run[i].endings && Fresh(run[a], x, First(run[i].endings[x]).call)
    requires EvaluateAnswer.EvaluationEnds(evaluationID, script, verdict, loaded, sent, stopped, used)
    requires PlaysEvaluation(run[i].endings[x], evaluationID, checklistID, script, sent, stopped)
    requires loaded.Some? ==> LoadedIn(run, a, evaluationID, checklistID, loaded.value)
    requires sent.Some? ==> loaded.Some? && EvaluateAnswer.ScoredOver(sent.value, loaded.value)
    ensures loaded.Some? && stopped.Some? ==> stopped.value.stage in {AtJudging, AtEvaluationSuccess}
    ensures sent.Some? ==> NoneRejected(run[i].base, First(run[i].endings[x]))
    ensures stopped.Some? && stopped.value.stage == AtEvaluationSuccess ==> PlainCause(stopped.value.cause)
  {
    if loaded.Some? {
      LoadedIsJudgeable(run, a, evaluationID, checklistID, loaded.value);
      StopAfterLoad(evaluationID, script, verdict, loaded, sent, stopped, used);
    }
    if sent.Some? {
      ScoreStands(run, a, i, x, evaluationID, loaded.value, First(run[i].endings[x]).call, sent.value);
    }
    if stopped.Some? && stopped.value.stage == AtEvaluationSuccess {
      StopAtSuccess(run[i].endings[x], evaluationID, checklistID, script, verdict, loaded, sent, stopped.value, used);
      PlainlyHeardCause(First(run[i].endings[x]).heard);
    }
  }

  /** The evaluation workflow over the whole system. Its script comes from the activities, what it loads from reads of the
      history, made for its evaluation before its first terminal activity, and the rest is as above. Then nil means a succeeded
      row with exactly the votes of all runs and their score, a returned cause a failed row with a record as above. Moreover,
      the workflow accepts whatever checklist it has loaded; and no attempt to store its score is rejected by the
      recomputation, so that it stops there only for what a broken connection, a missing or otherwise ended row, or silence
      tells it. */
  lemma {:induction false} EvaluationWorkflowIsSafe(run: seq<World>, a: nat, i: nat, j: nat, x: nat, writes: seq<StoreWrite>,
                                                    later: seq<StoreWrite>, evaluationID: string, checklistID: string,
                                                    loads: seq<Checklist>, script: EvaluateAnswer.EvaluationScript,
                                                    verdict: Verdict, loaded: Option<Checklist>,
                                                    sent: Option<EvaluateAnswer.ScoredVotes>, stopped: Option<Stopped>, used: nat)
    requires History(run) && a <= i <= j < |run| && x in run[i].endings && run[i].endings[x].returned.Some?
    requires Fresh(run[a], x, First(run[i].endings[x]).call)
    requires forall c | c in loads :: LoadedIn(run, a, evaluationID, checklistID, c)
    requires WellBehaved(later) && writes <= later && EvaluationScriptFrom(script, evaluationID, checklistID, loads, writes)
    requires EvaluateAnswer.EvaluationEnds(evaluationID, script, verdict, loaded, sent, stopped, used)
    requires PlaysEvaluation(run[i].endings[x], evaluationID, checklistID, script, sent, stopped)
    ensures VerdictOf(run[i].endings[x], verdict)
    ensures verdict.Nil? ==>
              && sent.Some?
              && Effective(SucceedEvaluation(evaluationID, checklistID, sent.value.votes, sent.value.score), Current(run[j].base))
    ensures verdict.Recorded? ==>
              Effective(FailEvaluation(evaluationID, checklistID, verdict.details), Current(run[j].base))
              && RecordOk(verdict.details, AfterWrites(later).Keys)
    ensures loaded.Some? && stopped.Some? ==> stopped.value.stage in {AtJudging, AtEvaluationSuccess}
    ensures sent.Some? ==> NoneRejected(run[i].base, First(run[i].endings[x]))
    ensures stopped.Some? && stopped.value.stage == AtEvaluationSuccess ==> PlainCause(stopped.value.cause)
  {
    EvaluationReturns(run, i, j, x, evaluationID, checklistID, script, verdict, loaded, sent, stopped, used);
    EvaluationRecordLasts(writes, later, evaluationID, checklistID, loads, script, verdict, loaded, sent, stopped, used);
    WritesStayWellBehaved(writes, later);
    SentOverLoad(writes, evaluationID, checklistID, loads, script, verdict, loaded, sent, stopped, used);
    ScoreIsSafe(run, a, i, x, evaluationID, checklistID, script, verdict, loaded, sent, stopped, used);
  }
}
