/** How workflows end: the last activity and its retries, over all interleavings of the protocol.

    A workflow runs a terminal activity under the retry policy. Each attempt is a call in flight; what the workflow hears of
    it need not be what became of it: replies are lost, attempts time out while their call goes on, workflows are cancelled.
    When the activity that should succeed the row has failed for good, the workflow tries to fail the row instead. Anyone
    else may begin calls of their own, such as the API when it believes that the workflow never started. */
module Endings {
  import opened Common
  import opened Seqs
  import opened Database
  import opened Failures
  import opened Calls
  import opened Repeats
  import opened Linear
  import opened Protocol
  import opened Safety
  import opened Workflows
  import opened Terminals

  /** nil, the cause that was recorded, or the error of the activity that should have recorded it. */
  datatype Returned = ReturnedNil | ReturnedCause | ReturnedError

  /** A terminal activity: its attempts, as calls in flight, and what the workflow has heard of them. */
  datatype Phase = Phase(call: Call, pids: seq<nat>, heard: seq<Attempted<()>>)

  /** The activity a workflow is at, the one it had tried before that, and what it returned. */
  datatype Ending = Ending(tried: Option<Phase>, now: Phase, returned: Option<Returned>)

  /** The first terminal activity of a workflow. */
  function First(e: Ending): Phase {
    if e.tried.Some? then e.tried.value else e.now
  }

  datatype World = World(base: State, endings: map<nat, Ending>)

  datatype Move =
    | Elsewhere(step: Step)
    | Start(id: nat, call: Call)
    | Attempt(id: nat, pid: nat)
    | Hear(id: nat, a: Attempted<()>)
    | FallBack(id: nat)
    | Return(id: nat)

  /** The call that records the failure of the row a call wanted to succeed. */
  function FailInstead(call: Call, details: Details): (f: Call)
    requires Succeeds(call)
    ensures f.Terminal() && !Succeeds(f) && f.Entity() == call.Entity()
  {
    match call
    case SucceedChecklist(id, _, _) => FailChecklist(id, details)
    case SucceedEvaluation(id, c, _, _) => FailEvaluation(id, c, details)
  }

  /** The record of the failure of a succeeding activity. */
  function RecordOf(call: Call, cause: Cause): Details
    requires Succeeds(call)
  {
    if call.SucceedChecklist? then WorkflowDetails(cause, ChecklistWorkflowID(call.id), AtChecklistSuccess.Name())
    else WorkflowDetails(cause, EvaluationWorkflowID(call.id), AtEvaluationSuccess.Name())
  }

  /** No further attempt is made. */
  predicate Settled(heard: seq<Attempted<()>>) {
    heard != [] && (|heard| == MAX_ATTEMPTS || !TriedAgain(heard[|heard| - 1]))
  }

  ghost predicate Replied(s: State, pid: nat, call: Call, reply: Reply) {
    Finished(s, pid) && s.procs[pid].call == call && ReplyIn(s, pid) == reply
  }

  /** What a call that recomputes a score had read. */
  ghost function ReadBy(s: State, pid: nat): Reply
    requires Finished(s, pid) && s.procs[pid].call.Terminal()
  {
    ReadBefore(s.procs[pid].call, Seen(s.hist, s.procs[pid].at))
  }

  /** What can be heard of the attempt under way: success only if its call was acknowledged; the error its reply stands for,
      or of a connection that broke at any point; or nothing. */
  ghost predicate CanHear(s: State, p: Phase, a: Attempted<()>)
    requires |p.heard| < |p.pids| && p.call.Terminal()
  {
    var pid, n := p.pids[|p.heard|], |p.heard| + 1;
    match a
    case Done(_) => Replied(s, pid, p.call, Acked)
    case Errored(e) =>
      || e == ToTemporalError(OtherError, n, [])
      || exists reply :: Replied(s, pid, p.call, reply) && Reports(Failure(e), p.call, reply, ReadBy(s, pid), n)
    case TimedOut => true
    case Cancelled => true
  }

  /** What a workflow returns after its last activity. */
  function ReturnOf(p: Phase): Returned {
    if Answer(p.heard).Failure? then ReturnedError else if Succeeds(p.call) then ReturnedNil else ReturnedCause
  }

  ghost predicate Moves(w: World, w': World, move: Move) {
    match move
    case Elsewhere(step) => Next(w.base, w'.base, step) && w'.endings == w.endings
    case Start(id, call) =>
      call.Terminal() && id !in w.endings && w' == w.(endings := w.endings[id := Ending(None, Phase(call, [], []), None)])
    case Attempt(id, pid) =>
      && id in w.endings && w.endings[id].returned == None
      && var e := w.endings[id];
         && |e.now.pids| == |e.now.heard| && (e.now.heard == [] || !Settled(e.now.heard))
         && Next(w.base, w'.base, Begin(pid, e.now.call))
         && w'.endings == w.endings[id := e.(now := e.now.(pids := e.now.pids + [pid]))]
    case Hear(id, a) =>
      && id in w.endings && w.endings[id].returned == None
      && var e := w.endings[id];
         && |e.now.heard| < |e.now.pids| && e.now.call.Terminal() && CanHear(w.base, e.now, a)
         && w' == w.(endings := w.endings[id := e.(now := e.now.(heard := e.now.heard + [a]))])
    case FallBack(id) =>
      && id in w.endings && w.endings[id].returned == None
      && var e := w.endings[id];
         && Succeeds(e.now.call) && Settled(e.now.heard) && Answer(e.now.heard).Failure?
         && w' == w.(endings := w.endings[id :=
              Ending(Some(e.now), Phase(FailInstead(e.now.call, RecordOf(e.now.call, Answer(e.now.heard).error)), [], []), None)])
    case Return(id) =>
      && id in w.endings && w.endings[id].returned == None
      && var e := w.endings[id];
         && Settled(e.now.heard) && (Succeeds(e.now.call) ==> Answer(e.now.heard).Success?)
         && w' == w.(endings := w.endings[id := e.(returned := Some(ReturnOf(e.now)))])
  }

  // ---------------------------------------------------------------- the invariant

  /** What is known of a terminal activity: attempts follow the retry policy, one at a time, and success means it took effect. */
  ghost predicate PhaseOk(p: Phase, db: Db) {
    && p.call.Terminal()
    && |p.heard| <= |p.pids| <= |p.heard| + 1 && |p.pids| <= MAX_ATTEMPTS
    && (forall k | 0 <= k < |p.heard| - 1 :: TriedAgain(p.heard[k]))
    && (|p.heard| < |p.pids| && p.heard != [] ==> !Settled(p.heard))
    && (forall k | 0 <= k < |p.heard| :: p.heard[k].Done? ==> Effective(p.call, db))
    && ErrorsOk(p.heard, {})
  }

  /** A workflow fails its row only after it could not succeed it, and returns what the last activity's answer says. */
  ghost predicate EndingOk(e: Ending, db: Db) {
    && PhaseOk(e.now, db)
    && (e.tried.Some? ==>
          && PhaseOk(e.tried.value, db) && Succeeds(e.tried.value.call)
          && Settled(e.tried.value.heard) && Answer(e.tried.value.heard).Failure?
          && e.now.call == FailInstead(e.tried.value.call, RecordOf(e.tried.value.call, Answer(e.tried.value.heard).error)))
    && (e.returned.Some? ==>
          && Settled(e.now.heard) && e.returned.value == ReturnOf(e.now)
          && (Succeeds(e.now.call) ==> Answer(e.now.heard).Success?))
  }

  ghost predicate GoodWorld(w: World) {
    Good(w.base) && forall id | id in w.endings :: EndingOk(w.endings[id], Current(w.base))
  }

  ghost predicate InitWorld(w: World) {
    Init(w.base) && w.endings == map[]
  }

  /** An activity that answered with success has taken effect. */
  lemma {:induction false} AnsweredIsEffective(p: Phase, db: Db)
    requires PhaseOk(p, db) && Answer(p.heard).Success?
    ensures Effective(p.call, db)
  {
    AnsweredAt(p.heard);
  }

  lemma {:induction false} PhaseStaysOk(p: Phase, a: Db, b: Db)
    requires PhaseOk(p, a) && Extends(a, b)
    ensures PhaseOk(p, b)
  {
    if Effective(p.call, a) {
      StaysEffective(p.call, a, b);
    }
  }

  lemma {:induction false} EndingStaysOk(e: Ending, a: Db, b: Db)
    requires EndingOk(e, a) && Extends(a, b)
    ensures EndingOk(e, b)
  {
    PhaseStaysOk(e.now, a, b);
    if e.tried.Some? {
      PhaseStaysOk(e.tried.value, a, b);
    }
  }

  /** Whatever is heard of an attempt is true of it. */
  lemma {:induction false} HearKeepsPhase(s: State, p: Phase, a: Attempted<()>)
    requires Good(s) && PhaseOk(p, Current(s)) && |p.heard| < |p.pids| && CanHear(s, p, a)
    ensures PhaseOk(p.(heard := p.heard + [a]), Current(s))
  {
    if a.Done? {
      AckedIsEffectiveNow(s, p.pids[|p.heard|]);
    }
    if a.Errored? {
      HeardIsClean(s, p, a.error);
    }
    HeardFits(p, a, Current(s));
  }

  lemma {:induction false} HeardIsClean(s: State, p: Phase, e: ActivityError)
    requires |p.heard| < |p.pids| && p.call.Terminal() && CanHear(s, p, Errored(e))
    ensures CleanError(e, {})
  {
    var n := |p.heard| + 1;
    CleanErrorOf(OtherError, n, [], {});
    if e != ToTemporalError(OtherError, n, []) {
      var reply, read := ReportedBy(s, p, e);
      ReportIsClean(Failure(e), p.call, reply, read, n);
    }
  }

  lemma ReportedBy(s: State, p: Phase, e: ActivityError) returns (reply: Reply, read: Reply)
    requires |p.heard| < |p.pids| && p.call.Terminal() && CanHear(s, p, Errored(e))
    requires e != ToTemporalError(OtherError, |p.heard| + 1, [])
    ensures Reports(Failure(e), p.call, reply, read, |p.heard| + 1)
    ensures Replied(s, p.pids[|p.heard|], p.call, reply) && read == ReadBy(s, p.pids[|p.heard|])
  {
    var pid, n := p.pids[|p.heard|], |p.heard| + 1;
    reply :| Replied(s, pid, p.call, reply) && Reports(Failure(e), p.call, reply, ReadBy(s, pid), n);
    read := ReadBy(s, pid);
  }

  lemma {:induction false} HeardFits(p: Phase, a: Attempted<()>, db: Db)
    requires PhaseOk(p, db) && |p.heard| < |p.pids|
    requires a.Done? ==> Effective(p.call, db)
    requires a.Errored? ==> CleanError(a.error, {})
    ensures PhaseOk(p.(heard := p.heard + [a]), db)
  {
    var heard := p.heard + [a];
    forall k | 0 <= k < |heard| - 1 ensures TriedAgain(heard[k]) {
      if k == |p.heard| - 1 {
        assert !Settled(p.heard);
      }
    }
  }

  /** The move of one workflow keeps what is known of it. */
  lemma {:induction false} OwnMoveKeepsEnding(w: World, w': World, move: Move)
    requires Good(w.base) && Moves(w, w', move) && !move.Elsewhere? && !move.Start?
    requires move.id in w.endings && EndingOk(w.endings[move.id], Current(w.base))
    ensures EndingOk(w'.endings[move.id], Current(w.base))
  {
    var e := w.endings[move.id];
    match move {
      case Hear(_, a) => HearKeepsPhase(w.base, e.now, a);
      case _ =>
    }
  }

  lemma {:induction false} MoveKeepsBase(w: World, w': World, move: Move)
    requires Good(w.base) && Moves(w, w', move)
    ensures Good(w'.base) && Extends(Current(w.base), Current(w'.base))
    ensures w.base.hist <= w'.base.hist
  {
    match move {
      case Elsewhere(step) => StepKeepsGood(w.base, w'.base, step);
      case Attempt(id, pid) => StepKeepsGood(w.base, w'.base, Begin(pid, w.endings[id].now.call));
      case _ =>
    }
    CurrentExtends(w.base, w'.base);
  }

  lemma {:induction false} MoveKeepsGood(w: World, w': World, move: Move)
    requires GoodWorld(w) && Moves(w, w', move)
    ensures GoodWorld(w') && Extends(Current(w.base), Current(w'.base))
  {
    MoveKeepsBase(w, w', move);
    forall x | x in w'.endings ensures EndingOk(w'.endings[x], Current(w'.base)) {
      if x in w.endings {
        assert EndingOk(w.endings[x], Current(w.base));
        if !move.Elsewhere? && x == move.id {
          OwnMoveKeepsEnding(w, w', move);
        }
        EndingStaysOk(w'.endings[x], Current(w.base), Current(w'.base));
      }
    }
  }

  // ---------------------------------------------------------------- histories

  ghost predicate MovesOn(w: World, w': World) {
    exists move :: Moves(w, w', move)
  }

  ghost predicate History(run: seq<World>) {
    run != [] && InitWorld(run[0]) && forall i, j | 0 <= i < j < |run| && j == i + 1 :: MovesOn(run[i], run[j])
  }

  lemma {:induction false} HistoryIsGood(run: seq<World>, i: nat)
    requires History(run) && i < |run|
    ensures GoodWorld(run[i])
  {
    if i == 0 {
      InitIsGood(run[0].base);
    } else {
      HistoryIsGood(run, i - 1);
      MovesOnExtends(run[i - 1], run[i]);
    }
  }

  lemma {:induction false} MovesOnExtends(w: World, w': World)
    requires GoodWorld(w) && MovesOn(w, w')
    ensures GoodWorld(w') && Extends(Current(w.base), Current(w'.base))
  {
    var move :| Moves(w, w', move);
    MoveKeepsGood(w, w', move);
  }

  lemma {:induction false} HistoryExtends(run: seq<World>, i: nat, j: nat)
    requires History(run) && i <= j < |run|
    ensures Extends(Current(run[i].base), Current(run[j].base))
  {
    var first := Current(run[i].base);
    var later := (w: World) => Extends(first, Current(w.base));
    forall k | i < k <= j && later(run[k - 1]) ensures later(run[k]) {
      NextExtends(run, k);
      ExtendsTransitive(first, Current(run[k - 1].base), Current(run[k].base));
    }
    ExtendsReflexive(first);
    KeptAlong(run, later, i, j);
  }

  lemma HistoryStep(run: seq<World>, j: nat)
    requires History(run) && 0 < j < |run|
    ensures GoodWorld(run[j - 1]) && MovesOn(run[j - 1], run[j])
  {
    HistoryIsGood(run, j - 1);
  }

  lemma NextExtends(run: seq<World>, j: nat)
    requires History(run) && 0 < j < |run|
    ensures Extends(Current(run[j - 1].base), Current(run[j].base))
  {
    HistoryStep(run, j);
    MovesOnExtends(run[j - 1], run[j]);
  }

  /** A workflow that returned nil has a succeeded row with exactly the rows it sent, and one that returned its cause has
      a failed row whose record equals the one it sent: at that moment and at every later one. */
  lemma {:induction false} ReturnMeansStored(run: seq<World>, i: nat, j: nat, id: nat)
    requires History(run) && i <= j < |run| && id in run[i].endings
    ensures var e := run[i].endings[id];
            e.returned == Some(ReturnedNil) || e.returned == Some(ReturnedCause) ==>
              && e.now.call.Terminal() && (Succeeds(e.now.call) <==> e.returned == Some(ReturnedNil))
              && Effective(e.now.call, Current(run[j].base))
  {
    HistoryIsGood(run, i);
    HistoryExtends(run, i, j);
    var e := run[i].endings[id];
    assert EndingOk(e, Current(run[i].base));
    if e.returned == Some(ReturnedNil) || e.returned == Some(ReturnedCause) {
      EndingStaysOk(e, Current(run[i].base), Current(run[j].base));
      AnsweredIsEffective(e.now, Current(run[j].base));
    }
  }

  /** Two workflows on one row, say a late start after the API recorded a start failure, never both get their way: if one
      returned nil, the other did not return its cause. */
  lemma {:induction false} NoSplitVerdict(run: seq<World>, i: nat, x: nat, y: nat)
    requires History(run) && i < |run| && x in run[i].endings && y in run[i].endings
    requires run[i].endings[x].now.call.Terminal() && run[i].endings[y].now.call.Terminal()
    requires run[i].endings[x].now.call.Entity() == run[i].endings[y].now.call.Entity()
    ensures !(run[i].endings[x].returned == Some(ReturnedNil) && run[i].endings[y].returned == Some(ReturnedCause))
  {
    ReturnMeansStored(run, i, i, x);
    ReturnMeansStored(run, i, i, y);
  }
}
