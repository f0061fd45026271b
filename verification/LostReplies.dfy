/** What a lost reply costs a workflow whose weights are not listed in candidate order. */
module LostReplies {
  import opened Common
  import opened Seqs
  import opened Database
  import opened Calls
  import opened Reads
  import opened Repeats
  import opened Linear
  import opened Protocol
  import opened Safety
  import opened Writers
  import opened Retries
  import opened Workflows
  import opened Endings

  ghost predicate NoneDone(heard: seq<Attempted<()>>) {
    forall k | 0 <= k < |heard| :: !heard[k].Done?
  }

  /** The payload is stored, but the workflow has heard of no success, and any attempt under way began too late for one. */
  ghost predicate Missed(w: World, x: nat, call: Call, v: nat) {
    && x in w.endings && call.SucceedChecklist? && MadeBy(call, w.base.hist, v)
    && var e := w.endings[x];
       if Succeeds(e.now.call) then
         && e.now.call == call && e.returned == None && NoneDone(e.now.heard) && |e.now.pids| <= |e.now.heard| + 1
         && (|e.now.heard| < |e.now.pids| ==> LateCall(w.base, e.now.pids[|e.now.heard|], v))
       else e.now.call.FailChecklist? && e.now.call.id == call.id
  }

  /** An attempt that began after the commit is not acknowledged. */
  lemma {:induction false} LateIsRefused(s: State, pid: nat, call: Call, v: nat)
    requires Good(s) && call.SucceedChecklist? && !InStoredOrder(call.content) && MadeBy(call, s.hist, v)
    requires LateCall(s, pid, v) && Finished(s, pid) && s.procs[pid].call == call
    ensures ReplyIn(s, pid) == Conflict
  {
    var k := TookEffect(s, pid);
    RepetitionAt(s.hist, call, v, k);
  }

  lemma NotAnswered(heard: seq<Attempted<()>>)
    requires NoneDone(heard)
    ensures Answer(heard).Failure?
  {
    if Answer(heard).Success? {
      AnsweredAt(heard);
    }
  }

  lemma MadeByLater(call: Call, hist: seq<Db>, longer: seq<Db>, v: nat)
    requires MadeBy(call, hist, v) && hist <= longer
    ensures MadeBy(call, longer, v)
  {
  }

  lemma {:induction false} HearsNoSuccess(s: State, p: Phase, a: Attempted<()>, v: nat)
    requires Good(s) && p.call.SucceedChecklist? && !InStoredOrder(p.call.content) && MadeBy(p.call, s.hist, v)
    requires |p.heard| < |p.pids| && LateCall(s, p.pids[|p.heard|], v) && CanHear(s, p, a)
    ensures !a.Done?
  {
    if a.Done? {
      LateIsRefused(s, p.pids[|p.heard|], p.call, v);
    }
  }

  lemma {:induction false} HearMisses(w: World, w': World, x: nat, a: Attempted<()>, call: Call, v: nat)
    requires Moves(w, w', Hear(x, a)) && Missed(w, x, call, v)
    requires Succeeds(w.endings[x].now.call) ==> !a.Done?
    ensures Missed(w', x, call, v)
  {
  }

  lemma {:induction false} AttemptMisses(w: World, w': World, x: nat, pid: nat, call: Call, v: nat)
    requires Moves(w, w', Attempt(x, pid)) && Missed(w, x, call, v)
    ensures Missed(w', x, call, v)
  {
    assert w'.base.hist == w.base.hist && w'.base.procs[pid].at == [];
  }

  lemma {:induction false} FallBackMisses(w: World, w': World, x: nat, call: Call, v: nat)
    requires Moves(w, w', FallBack(x)) && Missed(w, x, call, v)
    ensures Missed(w', x, call, v)
  {
  }

  lemma {:induction false} ReturnMisses(w: World, w': World, x: nat, call: Call, v: nat)
    requires Moves(w, w', Return(x)) && Missed(w, x, call, v)
    ensures Missed(w', x, call, v)
  {
    if Succeeds(w.endings[x].now.call) {
      NotAnswered(w.endings[x].now.heard);
    }
  }

  lemma {:induction false} OwnMoveMisses(w: World, w': World, move: Move, x: nat, call: Call, v: nat)
    requires Good(w.base) && Moves(w, w', move) && !move.Elsewhere? && !move.Start? && move.id == x
    requires Missed(w, x, call, v) && !InStoredOrder(call.content)
    ensures Missed(w', x, call, v)
  {
    match move {
      case Attempt(_, pid) => AttemptMisses(w, w', x, pid, call, v);
      case Hear(_, a) =>
        if Succeeds(w.endings[x].now.call) {
          HearsNoSuccess(w.base, w.endings[x].now, a, v);
        }
        HearMisses(w, w', x, a, call, v);
      case FallBack(_) => FallBackMisses(w, w', x, call, v);
      case Return(_) => ReturnMisses(w, w', x, call, v);
    }
  }

  lemma {:induction false} OtherMoveMisses(w: World, w': World, move: Move, x: nat, call: Call, v: nat)
    requires Moves(w, w', move) && (move.Elsewhere? || move.id != x)
    requires Missed(w, x, call, v) && w.base.hist <= w'.base.hist
    ensures Missed(w', x, call, v)
  {
    var e := w.endings[x];
    assert w'.endings[x] == e;
    MadeByLater(call, w.base.hist, w'.base.hist, v);
    if |e.now.heard| < |e.now.pids| {
      var pid := e.now.pids[|e.now.heard|];
      match move {
        case Elsewhere(step) =>
          if LateCall(w.base, pid, v) {
            StaysLate(w.base, w'.base, step, pid, v);
          }
        case Attempt(id, q) =>
          if LateCall(w.base, pid, v) {
            StaysLate(w.base, w'.base, Begin(q, w.endings[id].now.call), pid, v);
          }
        case _ =>
      }
    }
  }

  lemma {:induction false} MissedStays(run: seq<World>, a: nat, j: nat, x: nat, call: Call, v: nat)
    requires History(run) && a <= j < |run| && Missed(run[a], x, call, v) && !InStoredOrder(call.content)
    ensures Missed(run[j], x, call, v)
  {
    var missed := (w: World) => Missed(w, x, call, v);
    forall k | a < k <= j && missed(run[k - 1]) ensures missed(run[k]) {
      MissedAt(run, k, x, call, v);
    }
    KeptAlong(run, missed, a, j);
  }

  lemma MissedAt(run: seq<World>, j: nat, x: nat, call: Call, v: nat)
    requires History(run) && 0 < j < |run| && Missed(run[j - 1], x, call, v) && !InStoredOrder(call.content)
    ensures Missed(run[j], x, call, v)
  {
    HistoryStep(run, j);
    MissedNext(run[j - 1], run[j], x, call, v);
  }

  lemma {:induction false} MissedNext(w: World, w': World, x: nat, call: Call, v: nat)
    requires GoodWorld(w) && MovesOn(w, w') && Missed(w, x, call, v) && !InStoredOrder(call.content)
    ensures Missed(w', x, call, v)
  {
    var move :| Moves(w, w', move);
    MoveKeepsBase(w, w', move);
    if !move.Elsewhere? && move.id == x {
      OwnMoveMisses(w, w', move, x, call, v);
    } else {
      OtherMoveMisses(w, w', move, x, call, v);
    }
  }

  lemma {:induction false} StoredRowStays(hist: seq<Db>, call: Call, v: nat)
    requires hist != [] && Chain(hist) && call.SucceedChecklist? && MadeBy(call, hist, v)
    ensures Effective(call, Last(hist))
  {
    assert Inv(hist[v - 1]) && Extends(hist[v], Last(hist));
    CommittedReply(call, hist[v - 1]);
    AckedIsEffective(call, hist[v - 1]);
    StaysEffective(call, hist[v], Last(hist));
  }

  /** If a payload whose weights are not in candidate order has been stored, and the workflow has not heard so by the time
      all its attempts so far have ended for it, then the workflow can only return the error of the activity that should
      have recorded its failure: never nil, never its cause, although its row has succeeded and stays so. */
  lemma {:induction false} LostReplyOfUnordered(run: seq<World>, a: nat, j: nat, x: nat, v: nat)
    requires History(run) && a <= j < |run| && x in run[a].endings
    requires run[a].endings[x].now.call.SucceedChecklist? && !InStoredOrder(run[a].endings[x].now.call.content)
    requires MadeBy(run[a].endings[x].now.call, run[a].base.hist, v)
    requires var e := run[a].endings[x]; e.returned == None && |e.now.heard| == |e.now.pids| && NoneDone(e.now.heard)
    ensures x in run[j].endings
    ensures run[j].endings[x].returned.None? || run[j].endings[x].returned == Some(ReturnedError)
    ensures Effective(run[a].endings[x].now.call, Current(run[j].base))
  {
    var call := run[a].endings[x].now.call;
    MissedStays(run, a, j, x, call, v);
    MissedReturns(run, j, x, call, v);
  }

  lemma {:induction false} MissedReturns(run: seq<World>, j: nat, x: nat, call: Call, v: nat)
    requires History(run) && j < |run| && Missed(run[j], x, call, v)
    ensures run[j].endings[x].returned.None? || run[j].endings[x].returned == Some(ReturnedError)
    ensures Effective(call, Current(run[j].base))
  {
    HistoryIsGood(run, j);
    StoredRowStays(run[j].base.hist, call, v);
    ReturnMeansStored(run, j, j, x);
    NeitherNilNorCause(run[j].endings[x], call, Current(run[j].base));
  }

  lemma NeitherNilNorCause(e: Ending, call: Call, db: Db)
    requires call.SucceedChecklist? && Effective(call, db)
    requires if Succeeds(e.now.call) then e.returned == None else e.now.call.FailChecklist? && e.now.call.id == call.id
    requires e.returned == Some(ReturnedNil) || e.returned == Some(ReturnedCause) ==>
               && e.now.call.Terminal() && (Succeeds(e.now.call) <==> e.returned == Some(ReturnedNil))
               && Effective(e.now.call, db)
    ensures e.returned.None? || e.returned == Some(ReturnedError)
  {
    assert e.returned != Some(ReturnedNil);
    assert e.returned != Some(ReturnedCause);
    assert e.returned.Some? ==> e.returned.value.ReturnedError?;
  }
}
