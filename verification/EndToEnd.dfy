/** The workflows on the protocol: what they send is never refused, and what they load is what they can rely on. */
module EndToEnd {
  import opened Common
  import opened Validate
  import opened Failures
  import opened Database
  import opened Calls
  import opened Effects
  import opened Reads
  import opened Store
  import opened Repeats
  import opened Protocol
  import opened Safety
  import opened Retries
  import opened EvaluateAnswer

  /** Terminal calls whose arguments alone make them valid. */
  ghost predicate SelfContained(call: Call) {
    match call
    case SucceedChecklist(_, c, limits) => ContentArgsOk(c, limits) && DistinctOrdinals(c)
    case FailChecklist(_, d) => DetailsOk(d)
    case FailEvaluation(_, _, d) => DetailsOk(d)
    case _ => false
  }

  lemma SettledRow(call: Call, db: Db)
    requires Inv(db) && call.Terminal() && ValidAlone(call, db)
    requires call.SucceedChecklist? ==> DistinctOrdinals(call.content)
    ensures AtomicReply(call, db) in {Acked, Conflict, NotFound}
    ensures RowExists(db, call) ==> !IsRunning(AtomicResult(call, db), call) && RowExists(AtomicResult(call, db), call)
  {
    ValidIsNeverRefused(call, db);
    WritesAlone(call, db);
    if IsRunning(db, call) {
      if call.SucceedEvaluation? {
        ValidEvaluationIsReady(call, db);
      }
      CommitsWhenReady(call, db);
      CommittedRow(call, db);
    }
  }

  /** In every run, a compiled payload and a valid failure record are never rejected and never stopped by a constraint:
      only a row that ended otherwise, or is not there, can refuse them. */
  lemma {:induction false} WorkflowCallsAreNeverRefused(run: seq<State>, i: nat, pid: nat)
    requires Run(run) && i < |run| && Finished(run[i], pid) && SelfContained(run[i].procs[pid].call)
    ensures ReplyIn(run[i], pid) in {Acked, Conflict, NotFound}
  {
    RunIsGood(run, i);
    var k := TookEffect(run[i], pid);
    RefusedNowhere(run[i].hist, run[i].procs[pid].call, k);
  }

  lemma RefusedNowhere(hist: seq<Db>, call: Call, k: nat)
    requires Chain(hist) && k < |hist| && SelfContained(call)
    ensures call.Terminal() && AtomicReply(call, hist[k]) in {Acked, Conflict, NotFound}
  {
    assert Inv(hist[k]);
    SettledRow(call, hist[k]);
  }

  /** A valid call that has taken effect leaves no running row. */
  lemma {:induction false} SettledFrom(hist: seq<Db>, call: Call, reply: Reply, first: nat, k: nat)
    requires hist != [] && Chain(hist) && first <= k && TakesEffectAt(hist, call, reply, k)
    requires call.Terminal() && ValidAlone(call, hist[k]) && (call.SucceedChecklist? ==> DistinctOrdinals(call.content))
    requires RowExists(hist[first], call)
    ensures LockStatus(Last(hist), call) != Some(Running)
  {
    assert Extends(hist[first], hist[k]) && Inv(hist[k]);
    RowStays(call, hist[first], hist[k]);
    SettledRow(call, hist[k]);
    var m := ResultVersion(hist, call, reply, k);
    assert Extends(hist[m], Last(hist));
    StaysSettled(call, hist[m], Last(hist));
  }

  /** No entity is left running because of what a workflow sent: once such a call has been answered, whatever the answer,
      a row that was there when it began is not running any more. */
  lemma {:induction false} NothingIsLeftRunning(run: seq<State>, i: nat, pid: nat)
    requires Run(run) && i < |run| && Finished(run[i], pid) && SelfContained(run[i].procs[pid].call)
    requires run[i].procs[pid].call.Terminal()
    requires RowExists(run[i].hist[run[i].procs[pid].at[0]], run[i].procs[pid].call)
    ensures LockStatus(Current(run[i]), run[i].procs[pid].call) != Some(Running)
  {
    RunIsGood(run, i);
    SettledNow(run[i], pid, run[i].procs[pid].call);
  }

  lemma {:induction false} SettledNow(s: State, pid: nat, call: Call)
    requires Good(s) && Finished(s, pid) && call == s.procs[pid].call && SelfContained(call) && call.Terminal()
    requires RowExists(s.hist[s.procs[pid].at[0]], call)
    ensures LockStatus(Last(s.hist), call) != Some(Running)
  {
    var k := TookEffect(s, pid);
    SettledFrom(s.hist, call, ReplyIn(s, pid), s.procs[pid].at[0], k);
  }

  // ---------------------------------------------------------------- evaluations

  /** A loaded checklist the evaluation workflow goes on with. */
  ghost predicate Judgeable(reply: Reply) {
    reply.GotChecklist? && CanBeJudged(reply.checklist) && JudgeableQuestions(reply.checklist.content.questions)
  }

  /** Loading the checklist of an existing evaluation, whatever commits in between, returns a succeeded checklist that can
      be judged: creation checks this in a statement of its own, and it cannot change any more. */
  lemma {:induction false} EvaluationsLoadJudgeableChecklists(run: seq<State>, i: nat, loader: nat, evaluationID: string,
                                                              id: string, seen: seq<Db>)
    requires Run(run) && i < |run| && Finished(run[i], loader)
    requires run[i].procs[loader].call == Call.GetChecklist(id) && seen == Seen(run[i].hist, run[i].procs[loader].at)
    requires evaluationID in seen[0].evaluations && seen[0].evaluations[evaluationID].checklistID == id
    ensures Judgeable(ReadChecklist(seen, id))
  {
    LoadInRun(run, i, loader, seen);
    LoadedForEvaluation(seen, id, evaluationID);
  }

  lemma {:induction false} LoadInRun(run: seq<State>, i: nat, pid: nat, seen: seq<Db>)
    requires Run(run) && i < |run| && Finished(run[i], pid) && run[i].procs[pid].call.GetChecklist?
    requires seen == Seen(run[i].hist, run[i].procs[pid].at)
    ensures Chain(seen) && |seen| == CHECKLIST_READS
  {
    RunIsGood(run, i);
    FinishedSeen(run[i], pid);
  }

  lemma {:induction false} LoadedForEvaluation(seen: seq<Db>, id: string, evaluationID: string)
    requires Chain(seen) && |seen| == CHECKLIST_READS
    requires evaluationID in seen[0].evaluations && seen[0].evaluations[evaluationID].checklistID == id
    ensures Judgeable(ReadChecklist(seen, id))
  {
    ChainAfter(seen);
    ChecklistOfEvaluation(seen[0], evaluationID);
    assert ChecklistInv(seen[0], id);
    TerminalChecklistRead(seen[0], seen, id);
  }

  /** The call stores the votes and the score a workflow sends. */
  predicate Sends(call: Call, checklistID: string, sent: ScoredVotes) {
    call.SucceedEvaluation? && call.checklistID == checklistID && call.votes == sent.votes && call.score == sent.score
  }

  lemma ComputedByLoader(s: State, loader: nat, call: Call, sent: ScoredVotes)
    requires Finished(s, loader) && s.procs[loader].call.GetChecklist? && ReplyIn(s, loader).GotChecklist?
    requires ScoredOver(sent, ReplyIn(s, loader).checklist) && Sends(call, s.procs[loader].call.id, sent)
    ensures ComputedFrom(ReplyIn(s, loader), call)
  {
  }

  /** The score of an evaluation workflow is never rejected by the recomputation over a fresh read. */
  lemma {:induction false} WorkflowScoresAreNeverRejected(run: seq<State>, i: nat, loader: nat, pid: nat, sent: ScoredVotes)
    requires Run(run) && i < |run| && Finished(run[i], loader) && Finished(run[i], pid)
    requires run[i].procs[loader].call.GetChecklist? && ReplyIn(run[i], loader).GotChecklist?
    requires ScoredOver(sent, ReplyIn(run[i], loader).checklist)
    requires Sends(run[i].procs[pid].call, run[i].procs[loader].call.id, sent)
    requires run[i].procs[loader].at[0] <= run[i].procs[pid].at[0]
    ensures ReplyIn(run[i], pid) in {Acked, Conflict, NotFound}
  {
    RunIsGood(run, i);
    ComputedByLoader(run[i], loader, run[i].procs[pid].call, sent);
    ScoreIsNeverRejected(run[i], loader, pid);
  }

  /** Nor is an evaluation left running by the score its workflow sent. */
  lemma {:induction false} NoEvaluationIsLeftRunning(run: seq<State>, i: nat, loader: nat, pid: nat, sent: ScoredVotes)
    requires Run(run) && i < |run| && Finished(run[i], loader) && Finished(run[i], pid)
    requires run[i].procs[loader].call.GetChecklist? && ReplyIn(run[i], loader).GotChecklist?
    requires ScoredOver(sent, ReplyIn(run[i], loader).checklist)
    requires Sends(run[i].procs[pid].call, run[i].procs[loader].call.id, sent)
    requires run[i].procs[loader].at[0] <= run[i].procs[pid].at[0]
    requires RowExists(run[i].hist[run[i].procs[pid].at[0]], run[i].procs[pid].call)
    ensures LockStatus(Current(run[i]), run[i].procs[pid].call) != Some(Running)
  {
    RunIsGood(run, i);
    ComputedByLoader(run[i], loader, run[i].procs[pid].call, sent);
    EvaluationSettledNow(run[i], loader, pid, run[i].procs[pid].call);
  }

  lemma {:induction false} EvaluationSettledNow(s: State, loader: nat, pid: nat, call: Call)
    requires Good(s) && Finished(s, loader) && Finished(s, pid) && call == s.procs[pid].call
    requires s.procs[loader].call.GetChecklist? && call.SucceedEvaluation? && s.procs[loader].call.id == call.checklistID
    requires ComputedFrom(ReplyIn(s, loader), call)
    requires s.procs[loader].at[0] <= s.procs[pid].at[0] && RowExists(s.hist[s.procs[pid].at[0]], call)
    ensures LockStatus(Last(s.hist), call) != Some(Running)
  {
    var k := TookEffect(s, pid);
    ScoredAt(s, loader, call, k);
    SettledFrom(s.hist, call, ReplyIn(s, pid), s.procs[pid].at[0], k);
  }
}
