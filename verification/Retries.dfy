/** Repetitions over whole runs: what repeating a call that has committed answers, at any later time. */
module Retries {
  import opened Database
  import opened Calls
  import opened Reads
  import opened Store
  import opened Repeats
  import opened Protocol
  import opened Safety
  import opened Writers

  lemma RowStays(call: Call, a: Db, b: Db)
    requires Extends(a, b) && call.Terminal() && RowExists(a, call)
    ensures RowExists(b, call)
  {
    match call {
      case SucceedChecklist(id, _, _) => assert ChecklistKept(a, b, id);
      case FailChecklist(id, _) => assert ChecklistKept(a, b, id);
      case SucceedEvaluation(id, _, _, _) => assert EvaluationKept(a, b, id);
      case FailEvaluation(id, _, _) => assert EvaluationKept(a, b, id);
    }
  }

  lemma StaysSettled(call: Call, a: Db, b: Db)
    requires Extends(a, b) && call.Terminal() && RowExists(a, call) && !IsRunning(a, call)
    ensures RowExists(b, call) && !IsRunning(b, call)
  {
    match call {
      case SucceedChecklist(id, _, _) => assert ChecklistKept(a, b, id);
      case FailChecklist(id, _) => assert ChecklistKept(a, b, id);
      case SucceedEvaluation(id, _, _, _) => assert EvaluationKept(a, b, id);
      case FailEvaluation(id, _, _) => assert EvaluationKept(a, b, id);
    }
  }

  /** Whether a terminal row matches a call does not change any more. */
  lemma {:induction false} MatchesLater(call: Call, a: Db, b: Db)
    requires Inv(a) && Extends(a, b) && call.Terminal() && RowExists(a, call) && !IsRunning(a, call)
    ensures RowExists(b, call) && !IsRunning(b, call)
    ensures Matches(call, b) <==> Matches(call, a)
  {
    StaysSettled(call, a, b);
    if call.Entity().ChecklistEntity? {
      ChecklistMatchesLater(call, a, b);
    } else {
      EvaluationMatchesLater(call, a, b);
    }
  }

  lemma {:induction false} ChecklistMatchesLater(call: Call, a: Db, b: Db)
    requires Inv(a) && Extends(a, b) && (call.SucceedChecklist? || call.FailChecklist?)
    requires RowExists(a, call) && !IsRunning(a, call) && RowExists(b, call)
    ensures Matches(call, b) <==> Matches(call, a)
  {
    QueriesKept(a, b, call.id);
    RecordKept(a, b, call.id);
  }

  lemma {:induction false} EvaluationMatchesLater(call: Call, a: Db, b: Db)
    requires Inv(a) && Extends(a, b) && (call.SucceedEvaluation? || call.FailEvaluation?)
    requires RowExists(a, call) && !IsRunning(a, call) && RowExists(b, call)
    ensures Matches(call, b) <==> Matches(call, a)
  {
    TerminalEvaluationKept(a, b, call.id);
    assert EvaluationKept(a, b, call.id);
  }

  /** The answer to a validated call that finds its row terminal, in terms of when the row ended. */
  lemma {:induction false} AnswerAfterEnd(call: Call, a: Db, b: Db)
    requires Inv(a) && Inv(b) && Extends(a, b) && call.Terminal() && ValidAlone(call, a)
    requires RowExists(a, call) && !IsRunning(a, call)
    ensures AtomicReply(call, b) == if Matches(call, a) then Acked else Conflict
  {
    MatchesLater(call, a, b);
    StaysValid(call, a, b);
    RepeatedCall(call, b);
  }

  lemma {:induction false} CommittedIsValid(call: Call, db: Db)
    requires Inv(db) && call.Terminal() && Commits(call, db)
    ensures var after := AtomicResult(call, db);
            && Inv(after) && ValidAlone(call, after) && RowExists(after, call) && !IsRunning(after, call)
            && (Matches(call, after) <==> (call.SucceedChecklist? ==> InStoredOrder(call.content)))
  {
    WritesAlone(call, db);
    CommittedRow(call, db);
    ResultIsSafe(call, db);
    StaysValid(call, db, AtomicResult(call, db));
  }

  /** In every run, any later repetition of a call that has committed is acknowledged, except for a checklist that was not
      sent in stored order: that gets ErrConflict, always. */
  lemma {:induction false} RepetitionInRun(run: seq<State>, i: nat, pid: nat, v: nat)
    requires Run(run) && i < |run| && Finished(run[i], pid) && run[i].procs[pid].call.Terminal()
    requires MadeBy(run[i].procs[pid].call, run[i].hist, v) && v <= run[i].procs[pid].at[0]
    ensures var call := run[i].procs[pid].call;
            ReplyIn(run[i], pid) == if call.SucceedChecklist? ==> InStoredOrder(call.content) then Acked else Conflict
  {
    RunIsGood(run, i);
    var k := TookEffect(run[i], pid);
    RepetitionAt(run[i].hist, run[i].procs[pid].call, v, k);
  }

  lemma {:induction false} RepetitionAt(hist: seq<Db>, call: Call, v: nat, k: nat)
    requires Chain(hist) && call.Terminal() && MadeBy(call, hist, v) && v <= k < |hist|
    ensures AtomicReply(call, hist[k]) == if call.SucceedChecklist? ==> InStoredOrder(call.content) then Acked else Conflict
  {
    assert Inv(hist[v - 1]) && Inv(hist[k]) && Extends(hist[v], hist[k]);
    CommittedIsValid(call, hist[v - 1]);
    AnswerAfterEnd(call, hist[v], hist[k]);
  }

  // ---------------------------------------------------------------- late calls

  /** Every statement the call has run, if it is in flight, saw version v or a later one. */
  ghost predicate LateCall(s: State, pid: nat, v: nat) {
    pid in s.procs ==> forall k | 0 <= k < |s.procs[pid].at| :: s.procs[pid].at[k] >= v
  }

  lemma StaysLate(s: State, s': State, step: Step, pid: nat, v: nat)
    requires Next(s, s', step) && LateCall(s, pid, v) && v < |s.hist|
    ensures LateCall(s', pid, v)
  {
  }
}
