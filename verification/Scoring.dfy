/** What an evaluation workflow loads is what its score is recomputed over, over all interleavings of the protocol. */
module Scoring {
  import opened Common
  import opened Seqs
  import opened Failures
  import opened Database
  import opened Calls
  import opened Reads
  import opened Repeats
  import opened Linear
  import opened Protocol
  import opened Safety
  import opened Retries
  import opened Workflows
  import opened Terminals
  import opened Endings
  import opened EvaluateAnswer
  import opened EndToEnd

  // ---------------------------------------------------------------- loading

  /** The evaluation was there when the call began. */
  ghost predicate BeganFor(s: State, pid: nat, evaluationID: string, checklistID: string)
    requires Finished(s, pid)
  {
    var db := s.hist[s.procs[pid].at[0]];
    evaluationID in db.evaluations && db.evaluations[evaluationID].checklistID == checklistID
  }

  /** Call pid was answered with checklist c, for an evaluation that existed. */
  ghost predicate LoadedAt(s: State, pid: nat, evaluationID: string, checklistID: string, c: Checklist) {
    Replied(s, pid, GetChecklist(checklistID), GotChecklist(c)) && BeganFor(s, pid, evaluationID, checklistID)
  }

  /** By moment a, a call was answered with checklist c. */
  ghost predicate LoadedIn(run: seq<World>, a: nat, evaluationID: string, checklistID: string, c: Checklist) {
    exists m: nat, pid: nat :: m <= a && m < |run| && LoadedAt(run[m].base, pid, evaluationID, checklistID, c)
  }

  lemma {:induction false} LoadedCanBeJudged(s: State, pid: nat, evaluationID: string, checklistID: string, c: Checklist)
    requires Good(s) && LoadedAt(s, pid, evaluationID, checklistID, c)
    ensures CanBeJudged(c)
  {
    FinishedSeen(s, pid);
    LoadedForEvaluation(Seen(s.hist, s.procs[pid].at), checklistID, evaluationID);
  }

  lemma {:induction false} ReadBeforeLater(s: State, pid: nat, later: Db)
    requires Good(s) && Finished(s, pid) && s.procs[pid].at != [] && Extends(Current(s), later)
    ensures Chain(Seen(s.hist, s.procs[pid].at)) && Extends(Seen(s.hist, s.procs[pid].at)[0], later)
  {
    FinishedSeen(s, pid);
    SeenIsChain(s.hist, s.procs[pid].at);
    ExtendsTransitive(Seen(s.hist, s.procs[pid].at)[0], Current(s), later);
  }

  /** A score over what was loaded is valid on any version from then on. */
  lemma {:induction false} LoadedScoreIsValid(s: State, pid: nat, c: Checklist, call: Call, sent: ScoredVotes, later: Db)
    requires Good(s) && call.SucceedEvaluation? && Replied(s, pid, GetChecklist(call.checklistID), GotChecklist(c))
    requires Sends(call, call.checklistID, sent) && ScoredOver(sent, c) && Extends(Current(s), later)
    ensures ValidAlone(call, later)
  {
    ComputedByLoader(s, pid, call, sent);
    ReadBeforeLater(s, pid, later);
    ScoredLater(Seen(s.hist, s.procs[pid].at), call, later);
  }

  // ---------------------------------------------------------------- storing the score

  const ANSWERS := {Acked, Conflict, NotFound}

  /** Attempts failed for no other reason than a broken connection, a missing row, or one that ended otherwise. */
  ghost predicate PlainlyHeard(heard: seq<Attempted<()>>) {
    forall k | 0 <= k < |heard| && heard[k].Errored? :: heard[k].error == ToTemporalError(OtherError, k + 1, [])
  }

  /** All attempts began with a version on which the call is valid, and whatever was heard of them is not a rejection. */
  ghost predicate Unrejected(s: State, p: Phase, call: Call, v: nat) {
    && p.call == call && call.SucceedEvaluation? && v < |s.hist| && ValidAlone(call, s.hist[v])
    && (forall k | 0 <= k < |p.pids| :: LateCall(s, p.pids[k], v))
    && PlainlyHeard(p.heard)
  }

  /** That is how it is with the workflow's first terminal activity. */
  ghost predicate Stands(w: World, x: nat, call: Call, v: nat) {
    && x in w.endings && Unrejected(w.base, First(w.endings[x]), call, v)
    && (w.endings[x].tried.Some? ==> !Succeeds(w.endings[x].now.call))
  }

  /** A call that began on such a version is not rejected. */
  lemma {:induction false} LateIsNotRejected(s: State, pid: nat, call: Call, v: nat)
    requires Good(s) && call.SucceedEvaluation? && v < |s.hist| && ValidAlone(call, s.hist[v])
    requires LateCall(s, pid, v) && Finished(s, pid) && s.procs[pid].call == call
    ensures ReplyIn(s, pid) in ANSWERS
  {
    var k := TookEffect(s, pid);
    AnsweredFrom(s.hist, call, v, k);
  }

  lemma {:induction false} AnsweredFrom(hist: seq<Db>, call: Call, v: nat, k: nat)
    requires Chain(hist) && call.SucceedEvaluation? && v <= k < |hist| && ValidAlone(call, hist[v])
    ensures AtomicReply(call, hist[k]) in ANSWERS
  {
    assert Inv(hist[v]) && Inv(hist[k]) && Extends(hist[v], hist[k]);
    MatchedLater(call, hist[v], hist[k]);
    ValidIsNeverRefused(call, hist[k]);
  }

  ghost predicate NotRejected(s: State, pid: nat, call: Call) {
    Finished(s, pid) && s.procs[pid].call == call ==> ReplyIn(s, pid) in ANSWERS
  }

  lemma {:induction false} UnrejectedReply(s: State, p: Phase, call: Call, v: nat, k: nat)
    requires Good(s) && Unrejected(s, p, call, v) && k < |p.pids|
    ensures NotRejected(s, p.pids[k], call)
  {
    if Finished(s, p.pids[k]) && s.procs[p.pids[k]].call == call {
      LateIsNotRejected(s, p.pids[k], call, v);
    }
  }

  lemma PlainReport(e: ActivityError, call: Call, reply: Reply, read: Reply, n: int)
    requires call.Terminal() && Reports(Failure(e), call, reply, read, n) && reply in ANSWERS
    ensures e == ToTemporalError(OtherError, n, [])
  {
  }

  lemma {:induction false} HearsNoRejection(s: State, p: Phase, e: ActivityError)
    requires p.call.Terminal() && |p.heard| < |p.pids| && CanHear(s, p, Errored(e))
    requires NotRejected(s, p.pids[|p.heard|], p.call)
    ensures e == ToTemporalError(OtherError, |p.heard| + 1, [])
  {
    if e != ToTemporalError(OtherError, |p.heard| + 1, []) {
      var reply, read := ReportedBy(s, p, e);
      PlainReport(e, p.call, reply, read, |p.heard| + 1);
    }
  }

  lemma PlainlyHeardMore(heard: seq<Attempted<()>>, a: Attempted<()>)
    requires PlainlyHeard(heard) && (a.Errored? ==> a.error == ToTemporalError(OtherError, |heard| + 1, []))
    ensures PlainlyHeard(heard + [a])
  {
  }

  lemma UnrejectedHear(s: State, p: Phase, a: Attempted<()>, call: Call, v: nat)
    requires Unrejected(s, p, call, v) && (a.Errored? ==> a.error == ToTemporalError(OtherError, |p.heard| + 1, []))
    ensures Unrejected(s, p.(heard := p.heard + [a]), call, v)
  {
    PlainlyHeardMore(p.heard, a);
  }

  lemma UnrejectedAttempt(s: State, s': State, p: Phase, pid: nat, call: Call, v: nat)
    requires Unrejected(s, p, call, v) && Next(s, s', Begin(pid, call))
    ensures Unrejected(s', p.(pids := p.pids + [pid]), call, v)
  {
  }

  lemma UnrejectedLater(s: State, s': State, step: Step, p: Phase, call: Call, v: nat)
    requires Unrejected(s, p, call, v) && Next(s, s', step) && s.hist <= s'.hist
    ensures Unrejected(s', p, call, v)
  {
    forall k | 0 <= k < |p.pids| ensures LateCall(s', p.pids[k], v) {
      StaysLate(s, s', step, p.pids[k], v);
    }
  }

  lemma {:induction false} UnrejectedHears(s: State, p: Phase, a: Attempted<()>, call: Call, v: nat)
    requires Good(s) && Unrejected(s, p, call, v) && |p.heard| < |p.pids| && CanHear(s, p, a)
    ensures Unrejected(s, p.(heard := p.heard + [a]), call, v)
  {
    if a.Errored? {
      UnrejectedReply(s, p, call, v, |p.heard|);
      HearsNoRejection(s, p, a.error);
    }
    UnrejectedHear(s, p, a, call, v);
  }

  lemma {:induction false} HearStands(w: World, w': World, x: nat, a: Attempted<()>, call: Call, v: nat)
    requires Good(w.base) && Moves(w, w', Hear(x, a)) && Stands(w, x, call, v)
    ensures Stands(w', x, call, v)
  {
    if w.endings[x].tried.None? {
      UnrejectedHears(w.base, w.endings[x].now, a, call, v);
    }
  }

  lemma {:induction false} AttemptStands(w: World, w': World, x: nat, pid: nat, call: Call, v: nat)
    requires Moves(w, w', Attempt(x, pid)) && Stands(w, x, call, v) && w.base.hist <= w'.base.hist
    ensures Stands(w', x, call, v)
  {
    var e := w.endings[x];
    if e.tried.None? {
      UnrejectedAttempt(w.base, w'.base, e.now, pid, call, v);
    } else {
      UnrejectedLater(w.base, w'.base, Begin(pid, e.now.call), e.tried.value, call, v);
    }
  }

  lemma {:induction false} FallBackStands(w: World, w': World, x: nat, call: Call, v: nat)
    requires Moves(w, w', FallBack(x)) && Stands(w, x, call, v)
    ensures Stands(w', x, call, v)
  {
  }

  lemma {:induction false} ReturnStands(w: World, w': World, x: nat, call: Call, v: nat)
    requires Moves(w, w', Return(x)) && Stands(w, x, call, v)
    ensures Stands(w', x, call, v)
  {
  }

  lemma {:induction false} OwnMoveStands(w: World, w': World, move: Move, x: nat, call: Call, v: nat)
    requires Good(w.base) && Moves(w, w', move) && !move.Elsewhere? && !move.Start? && move.id == x
    requires Stands(w, x, call, v) && w.base.hist <= w'.base.hist
    ensures Stands(w', x, call, v)
  {
    match move {
      case Attempt(_, pid) => AttemptStands(w, w', x, pid, call, v);
      case Hear(_, a) => HearStands(w, w', x, a, call, v);
      case FallBack(_) => FallBackStands(w, w', x, call, v);
      case Return(_) => ReturnStands(w, w', x, call, v);
    }
  }

  lemma {:induction false} OtherMoveStands(w: World, w': World, move: Move, x: nat, call: Call, v: nat)
    requires Moves(w, w', move) && (move.Elsewhere? || move.id != x)
    requires Stands(w, x, call, v) && w.base.hist <= w'.base.hist
    ensures Stands(w', x, call, v)
  {
    assert w'.endings[x] == w.endings[x];
    match move {
      case Elsewhere(step) => UnrejectedLater(w.base, w'.base, step, First(w.endings[x]), call, v);
      case Attempt(id, q) => UnrejectedLater(w.base, w'.base, Begin(q, w.endings[id].now.call), First(w.endings[x]), call, v);
      case _ =>
    }
  }

  lemma {:induction false} StandsNext(w: World, w': World, x: nat, call: Call, v: nat)
    requires GoodWorld(w) && MovesOn(w, w') && Stands(w, x, call, v)
    ensures Stands(w', x, call, v)
  {
    var move :| Moves(w, w', move);
    MoveKeepsBase(w, w', move);
    if !move.Elsewhere? && move.id == x {
      OwnMoveStands(w, w', move, x, call, v);
    } else {
      OtherMoveStands(w, w', move, x, call, v);
    }
  }

  lemma StandsAt(run: seq<World>, j: nat, x: nat, call: Call, v: nat)
    requires History(run) && 0 < j < |run| && Stands(run[j - 1], x, call, v)
    ensures Stands(run[j], x, call, v)
  {
    HistoryStep(run, j);
    StandsNext(run[j - 1], run[j], x, call, v);
  }

  lemma {:induction false} StandsOn(run: seq<World>, a: nat, j: nat, x: nat, call: Call, v: nat)
    requires History(run) && a <= j < |run| && Stands(run[a], x, call, v)
    ensures Stands(run[j], x, call, v)
  {
    var stands := (w: World) => Stands(w, x, call, v);
    forall k | a < k <= j && stands(run[k - 1]) ensures stands(run[k]) {
      StandsAt(run, k, x, call, v);
    }
    KeptAlong(run, stands, a, j);
  }

  // ---------------------------------------------------------------- the whole activity

  /** No attempt's call was rejected, and none is reported to have been. */
  ghost predicate NoneRejected(s: State, p: Phase) {
    (forall k | 0 <= k < |p.pids| :: NotRejected(s, p.pids[k], p.call)) && PlainlyHeard(p.heard)
  }

  lemma {:induction false} StandingIsNotRejected(s: State, p: Phase, call: Call, v: nat)
    requires Good(s) && Unrejected(s, p, call, v)
    ensures NoneRejected(s, p)
  {
    forall k | 0 <= k < |p.pids| ensures NotRejected(s, p.pids[k], p.call) {
      UnrejectedReply(s, p, call, v, k);
    }
  }

  /** The workflow is about to make the first attempt at its first terminal activity. */
  predicate Fresh(w: World, x: nat, call: Call) {
    x in w.endings && w.endings[x] == Ending(None, Phase(call, [], []), None)
  }

  lemma {:induction false} LoadedEarlier(run: seq<World>, a: nat, evaluationID: string, c: Checklist, call: Call, sent: ScoredVotes)
    requires History(run) && a < |run| && call.SucceedEvaluation? && LoadedIn(run, a, evaluationID, call.checklistID, c)
    requires Sends(call, call.checklistID, sent) && ScoredOver(sent, c)
    ensures ValidAlone(call, Current(run[a].base))
  {
    var m: nat, pid: nat :| m <= a && m < |run| && LoadedAt(run[m].base, pid, evaluationID, call.checklistID, c);
    HistoryIsGood(run, m);
    HistoryExtends(run, m, a);
    LoadedScoreIsValid(run[m].base, pid, c, call, sent, Current(run[a].base));
  }

  /** A workflow that computes its score over a checklist it loaded before is never stopped by a rejection of that score:
      in every history, whatever else commits, each attempt to store it is acknowledged, or fails because the row is not
      there or ended otherwise, or is not heard of. */
  lemma {:induction false} ScoreStands(run: seq<World>, a: nat, i: nat, x: nat, evaluationID: string, c: Checklist, call: Call,
                                       sent: ScoredVotes)
    requires History(run) && a <= i < |run| && call.SucceedEvaluation? && Fresh(run[a], x, call)
    requires LoadedIn(run, a, evaluationID, call.checklistID, c) && Sends(call, call.checklistID, sent) && ScoredOver(sent, c)
    ensures x in run[i].endings && First(run[i].endings[x]).call == call
    ensures NoneRejected(run[i].base, First(run[i].endings[x]))
  {
    LoadedEarlier(run, a, evaluationID, c, call, sent);
    HistoryIsGood(run, a);
    var v := |run[a].base.hist| - 1;
    assert Stands(run[a], x, call, v);
    StandsOn(run, a, i, x, call, v);
    HistoryIsGood(run, i);
    StandingIsNotRejected(run[i].base, First(run[i].endings[x]), call, v);
  }

  /** What was loaded for an existing evaluation is a checklist it can judge. */
  lemma {:induction false} LoadedIsJudgeable(run: seq<World>, a: nat, evaluationID: string, checklistID: string, c: Checklist)
    requires History(run) && a < |run| && LoadedIn(run, a, evaluationID, checklistID, c)
    ensures CanBeJudged(c)
  {
    var m: nat, pid: nat :| m <= a && m < |run| && LoadedAt(run[m].base, pid, evaluationID, checklistID, c);
    HistoryIsGood(run, m);
    LoadedCanBeJudged(run[m].base, pid, evaluationID, checklistID, c);
  }
}
