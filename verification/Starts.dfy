/** The API's start failure over whole runs: the handler creates a row and later fails it, in two calls of their own, while
    anyone else, such as the workflow that did start after all, may end the row in between. */
module Starts {
  import opened Failures
  import opened Database
  import opened Calls
  import opened Reads
  import opened Repeats
  import opened Linear
  import opened Protocol
  import opened Safety
  import opened Writers
  import opened Retries
  import opened Api

  predicate Fails(call: Call) {
    call.FailChecklist? || call.FailEvaluation?
  }

  /** A failing call with a valid record, whose row exists: it ends the row if it is running at its first statement, and
      otherwise says whether that is how the row had ended. */
  lemma {:induction false} FailReply(call: Call, seen: seq<Db>)
    requires Fails(call) && |seen| == Slots(call) && Chain(seen) && LockHeld(call, seen)
    requires DetailsOk(call.details) && RowExists(seen[0], call)
    ensures IsRunning(seen[0], call) ==> ReplyTo(call, seen) == Acked
    ensures !IsRunning(seen[0], call) ==> ReplyTo(call, seen) == if Matches(call, seen[0]) then Acked else Conflict
  {
    Linearizable(call, seen);
    LockFirstOutcome(call, seen);
    LockFirstStatements(call, seen);
    if IsRunning(seen[0], call) {
      ValidIsNeverRefused(call, seen[1]);
    } else {
      RepeatedCall(call, seen[0]);
    }
  }

  // ---------------------------------------------------------------- who ended the row

  /** From a to b the row of the call ends. */
  ghost predicate Ends(call: Call, a: Db, b: Db) {
    call.Terminal() && IsRunning(a, call) && !IsRunning(b, call)
  }

  /** Version v is the one the row of the call ended in. */
  ghost predicate EndedAt(hist: seq<Db>, call: Call, v: nat) {
    0 < v < |hist| && Ends(call, hist[v - 1], hist[v])
  }

  lemma {:induction false} EndBetween(hist: seq<Db>, call: Call, lo: nat, hi: nat) returns (v: nat)
    requires lo <= hi < |hist| && call.Terminal() && IsRunning(hist[lo], call) && !IsRunning(hist[hi], call)
    ensures lo < v <= hi && EndedAt(hist, call, v)
  {
    if IsRunning(hist[hi - 1], call) {
      v := hi;
    } else {
      v := EndBetween(hist, call, lo, hi - 1);
    }
  }

  /** A call that ends a row is a terminal one about that row. */
  lemma {:induction false} EnderIsTerminal(writer: Call, call: Call, a: Db)
    requires Commits(writer, a) && Ends(call, a, AtomicResult(writer, a))
    ensures writer.Terminal() && writer.Entity() == call.Entity()
  {
    if !writer.Terminal() || writer.Entity() != call.Entity() {
      OthersStillRunning(writer, a, call);
    }
  }

  lemma {:induction false} ChecklistEnder(writer: Call, call: Call, a: Db)
    requires call.FailChecklist? && Effect(writer, a).Some? && RowExists(a, call)
    requires writer.Terminal() && writer.Entity() == call.Entity()
    ensures RowExists(Effect(writer, a).value, call)
    ensures Matches(call, Effect(writer, a).value) <==> writer == call
  {
  }

  lemma {:induction false} EvaluationEnder(writer: Call, call: Call, a: Db)
    requires call.FailEvaluation? && Effect(writer, a).Some? && RowExists(a, call)
    requires writer.Terminal() && writer.Entity() == call.Entity()
    ensures RowExists(Effect(writer, a).value, call)
    ensures Matches(call, Effect(writer, a).value) <==> writer == call
  {
  }

  /** A failing call matches the end of its row exactly when the same call ended it. */
  lemma {:induction false} MatchesItsEnder(writer: Call, call: Call, a: Db)
    requires Fails(call) && Commits(writer, a) && Ends(call, a, AtomicResult(writer, a))
    ensures RowExists(AtomicResult(writer, a), call) && (Matches(call, AtomicResult(writer, a)) <==> writer == call)
  {
    EnderIsTerminal(writer, call, a);
    if call.FailChecklist? {
      ChecklistEnder(writer, call, a);
    } else {
      EvaluationEnder(writer, call, a);
    }
  }

  // ---------------------------------------------------------------- the handler's failing call

  /** Another call than this one ended the row, by version k. */
  ghost predicate EndedByAnother(run: seq<State>, hist: seq<Db>, call: Call, k: nat) {
    exists v: nat, b: nat, m: nat, pid: nat ::
      v <= k && EndedAt(hist, call, v) && WrittenBy(run, b, m, pid, hist, v) && WriterCall(run, m, pid) != call
  }

  lemma {:induction false} EnderDecides(writer: Call, call: Call, hist: seq<Db>, v: nat, k: nat)
    requires Chain(hist) && Fails(call) && MadeBy(writer, hist, v) && EndedAt(hist, call, v) && v <= k < |hist|
    ensures RowExists(hist[k], call) && !IsRunning(hist[k], call)
    ensures Matches(call, hist[k]) <==> writer == call
  {
    assert Inv(hist[v]) && Extends(hist[v], hist[k]);
    MatchesItsEnder(writer, call, hist[v - 1]);
    MatchesLater(call, hist[v], hist[k]);
  }

  /** The row was ended by another call only if the call does not match it. */
  lemma {:induction false} AnotherDoesNotMatch(run: seq<State>, hist: seq<Db>, call: Call, k: nat)
    requires Chain(hist) && Fails(call) && k < |hist| && EndedByAnother(run, hist, call, k)
    ensures RowExists(hist[k], call) && !IsRunning(hist[k], call) && !Matches(call, hist[k])
  {
    var v: nat, b: nat, m: nat, pid: nat :|
      v <= k && EndedAt(hist, call, v) && WrittenBy(run, b, m, pid, hist, v) && WriterCall(run, m, pid) != call;
    EnderDecides(WriterCall(run, m, pid), call, hist, v, k);
  }

  /** And if it does not match the end of a row that was running before, another call has ended it. */
  lemma {:induction false} MismatchMeansAnother(run: seq<State>, i: nat, call: Call, lo: nat, k: nat)
    requires Run(run) && i < |run| && Fails(call) && lo <= k < |run[i].hist| && Chain(run[i].hist)
    requires IsRunning(run[i].hist[lo], call) && !IsRunning(run[i].hist[k], call)
    ensures RowExists(run[i].hist[k], call)
    ensures !Matches(call, run[i].hist[k]) ==> EndedByAnother(run, run[i].hist, call, k)
  {
    var v := EndBetween(run[i].hist, call, lo, k);
    var b, m, pid := TheDatabaseIsSequential(run, i, v);
    EnderDecides(WriterCall(run, m, pid), call, run[i].hist, v, k);
  }

  lemma RowAtStart(hist: seq<Db>, call: Call, lo: nat, k: nat)
    requires Chain(hist) && call.Terminal() && lo <= k < |hist| && RowExists(hist[lo], call)
    ensures RowExists(hist[k], call)
  {
    assert Extends(hist[lo], hist[k]);
    RowStays(call, hist[lo], hist[k]);
  }

  /** Over whole runs, a failing call on a row that was running some time before its first statement is acknowledged or gets
      ErrConflict; the latter exactly when another call had ended the row before. Acknowledged, its record is there from
      then on. */
  lemma {:induction false} FailingInRun(run: seq<State>, i: nat, j: nat, pid: nat, lo: nat)
    requires Run(run) && i <= j < |run| && Finished(run[i], pid) && Fails(run[i].procs[pid].call)
    requires DetailsOk(run[i].procs[pid].call.details)
    requires lo <= run[i].procs[pid].at[0] && IsRunning(run[i].hist[lo], run[i].procs[pid].call)
    ensures ReplyIn(run[i], pid) in {Acked, Conflict}
    ensures ReplyIn(run[i], pid) == Conflict <==> EndedByAnother(run, run[i].hist, run[i].procs[pid].call, run[i].procs[pid].at[0])
    ensures ReplyIn(run[i], pid) == Acked ==> Effective(run[i].procs[pid].call, Current(run[j]))
  {
    RunIsGood(run, i);
    FinishedSeen(run[i], pid);
    var p := run[i].procs[pid];
    RowAtStart(run[i].hist, p.call, lo, p.at[0]);
    if EndedByAnother(run, run[i].hist, p.call, p.at[0]) {
      AnotherDoesNotMatch(run, run[i].hist, p.call, p.at[0]);
    } else if !IsRunning(run[i].hist[p.at[0]], p.call) {
      MismatchMeansAnother(run, i, p.call, lo, p.at[0]);
    }
    FailReply(p.call, Seen(run[i].hist, p.at));
    if ReplyIn(run[i], pid) == Acked {
      AckedIsDurable(run, i, j, pid);
    }
  }

  // ---------------------------------------------------------------- the handlers

  /** The call with which the API records that the workflow of a created row did not start. */
  function StartFailure(creation: Call): (call: Call)
    requires creation.CreateChecklist? || creation.CreateEvaluation?
    ensures Fails(call)
  {
    match creation
    case CreateChecklist(id, _) => Call.FailChecklist(id, ChecklistStartFailure(id))
    case CreateEvaluation(id, c) => Call.FailEvaluation(id, c, EvaluationStartFailure(id))
  }

  lemma StartFailureOk(creation: Call)
    requires creation.CreateChecklist? || creation.CreateEvaluation?
    ensures DetailsOk(StartFailure(creation).details)
  {
  }

  lemma CreatedIsRunning(creation: Call, db: Db)
    requires (creation.CreateChecklist? || creation.CreateEvaluation?) && Effect(creation, db).Some?
    ensures IsRunning(Effect(creation, db).value, StartFailure(creation))
  {
  }

  /** A creation that was acknowledged got to commit with its last statement. */
  lemma {:induction false} AckedCreation(creation: Call, seen: seq<Db>)
    requires (creation.CreateChecklist? || creation.CreateEvaluation?) && |seen| == Slots(creation)
    requires ReplyTo(creation, seen) == Acked
    ensures |seen| == WriteSlot(creation) + 1 && WantsWrite(creation, seen[..WriteSlot(creation)])
    ensures Effect(creation, seen[WriteSlot(creation)]).Some?
  {
  }

  /** The row a creation makes is running in the version after. */
  lemma {:induction false} CreatedAfter(creation: Call, hist: seq<Db>, last: nat, k: nat) returns (lo: nat)
    requires creation.CreateChecklist? || creation.CreateEvaluation?
    requires last < |hist| && CommittedAt(creation, hist, last) && Effect(creation, hist[last]).Some? && last < k
    ensures lo <= k && lo < |hist| && IsRunning(hist[lo], StartFailure(creation))
  {
    CreatedIsRunning(creation, hist[last]);
    lo := last + 1;
  }

  lemma {:induction false} CreationCommitted(hist: seq<Db>, p: Proc)
    requires p.call.CreateChecklist? || p.call.CreateEvaluation?
    requires InRange(hist, p.at) && |p.at| == Slots(p.call) && WroteAsMeant(hist, p)
    requires ReplyTo(p.call, Seen(hist, p.at)) == Acked
    ensures CommittedAt(p.call, hist, p.at[|p.at| - 1]) && Effect(p.call, hist[p.at[|p.at| - 1]]).Some?
  {
    AckedCreation(p.call, Seen(hist, p.at));
    SeenPrefix(hist, p.at, WriteSlot(p.call));
  }

  lemma {:induction false} MeantInRun(run: seq<State>, i: nat, pid: nat)
    requires Run(run) && i < |run| && Finished(run[i], pid)
    ensures WroteAsMeant(run[i].hist, run[i].procs[pid])
  {
    RunIsGood(run, i);
    FinishedSeen(run[i], pid);
  }

  lemma {:induction false} CreationCommittedInRun(run: seq<State>, i: nat, creator: nat)
    requires Run(run) && i < |run| && Finished(run[i], creator) && ReplyIn(run[i], creator) == Acked
    requires run[i].procs[creator].call.CreateChecklist? || run[i].procs[creator].call.CreateEvaluation?
    ensures var p, hist := run[i].procs[creator], run[i].hist;
            CommittedAt(p.call, hist, p.at[|p.at| - 1]) && Effect(p.call, hist[p.at[|p.at| - 1]]).Some?
  {
    MeantInRun(run, i, creator);
    CreationCommitted(run[i].hist, run[i].procs[creator]);
  }

  /** A creation that was acknowledged left its row running by any version after those it saw. */
  lemma {:induction false} CreatedInRun(run: seq<State>, i: nat, creator: nat, k: nat) returns (lo: nat)
    requires Run(run) && i < |run| && Finished(run[i], creator) && ReplyIn(run[i], creator) == Acked
    requires run[i].procs[creator].call.CreateChecklist? || run[i].procs[creator].call.CreateEvaluation?
    requires var at := run[i].procs[creator].at; at[|at| - 1] < k
    ensures lo <= k && lo < |run[i].hist| && IsRunning(run[i].hist[lo], StartFailure(run[i].procs[creator].call))
  {
    CreationCommittedInRun(run, i, creator);
    var p := run[i].procs[creator];
    lo := CreatedAfter(p.call, run[i].hist, p.at[|p.at| - 1], k);
  }

  /** A handler creates a row, and later records that its workflow did not start. In every run, the record is there from its
      acknowledgement on; and it is refused exactly when another call, of a workflow that runs after all, ended the row
      before. */
  lemma {:induction false} StartFailureInRun(run: seq<State>, i: nat, j: nat, creator: nat, pid: nat)
    requires Run(run) && i <= j < |run| && Finished(run[i], creator) && Finished(run[i], pid)
    requires run[i].procs[creator].call.CreateChecklist? || run[i].procs[creator].call.CreateEvaluation?
    requires ReplyIn(run[i], creator) == Acked && run[i].procs[pid].call == StartFailure(run[i].procs[creator].call)
    requires var at := run[i].procs[creator].at; at[|at| - 1] < run[i].procs[pid].at[0]
    ensures ReplyIn(run[i], pid) in {Acked, Conflict}
    ensures ReplyIn(run[i], pid) == Conflict <==> EndedByAnother(run, run[i].hist, run[i].procs[pid].call, run[i].procs[pid].at[0])
    ensures ReplyIn(run[i], pid) == Acked ==> Effective(run[i].procs[pid].call, Current(run[j]))
  {
    var lo := CreatedInRun(run, i, creator, run[i].procs[pid].at[0]);
    StartFailureOk(run[i].procs[creator].call);
    FailingInRun(run, i, j, pid, lo);
  }
}
