/** What holds in every run: rows settle once, every answer is that of one moment, acknowledgements last. */
module Safety {
  import opened Common
  import opened Seqs
  import opened Types
  import opened Validate
  import opened Score
  import opened Aggregation
  import opened Database
  import opened Calls
  import opened Effects
  import opened Reads
  import opened Store
  import opened Repeats
  import opened Shown
  import opened Linear
  import opened Protocol

  ghost predicate Finished(s: State, pid: nat) {
    pid in s.procs && InRange(s.hist, s.procs[pid].at) && |s.procs[pid].at| == Slots(s.procs[pid].call)
  }

  ghost function ReplyIn(s: State, pid: nat): Reply
    requires Finished(s, pid)
  {
    ReplyTo(s.procs[pid].call, Seen(s.hist, s.procs[pid].at))
  }

  // ---------------------------------------------------------------- rows

  /** A checklist has content iff it succeeded and a failure record iff it failed. */
  ghost predicate ChecklistSettled(db: Db, id: string)
    requires id in db.checklists
  {
    && (db.checklists[id].status == Succeeded <==> Rows(db.questions, id) != [])
    && (db.checklists[id].status == Succeeded ==> Rows(db.dimensions, id) != [] && Rows(db.candidates, id) != [])
    && (db.checklists[id].status != Succeeded ==> NoContent(db, id))
    && (db.checklists[id].status == Failed <==> ChecklistEntity(id) in db.failures)
  }

  /** An evaluation has votes and points iff it succeeded and a failure record iff it failed. */
  ghost predicate EvaluationSettled(db: Db, id: string)
    requires id in db.evaluations
  {
    && (db.evaluations[id].status == Succeeded <==> Rows(db.judgments, id) != [])
    && (db.evaluations[id].status == Succeeded <==> db.evaluations[id].points.Some?)
    && (db.evaluations[id].status == Failed <==> EvaluationEntity(id) in db.failures)
  }

  lemma {:induction false} ConsistentChecklist(db: Db, id: string)
    requires Inv(db) && id in db.checklists
    ensures ChecklistSettled(db, id)
  {
    assert ChecklistInv(db, id);
    if db.checklists[id].status == Succeeded {
      var q := QueryQuestions(db, id)[0];
      PermutationBasics(QueryQuestions(db, id), Rows(db.questions, id));
      assert q in Rows(db.questions, id);
      var k :| 0 <= k < |Rows(db.questions, id)| && Rows(db.questions, id)[k] == q;
      assert QuestionRowOk(Rows(db.questions, id)[k], DimensionIds(Rows(db.dimensions, id)), CandidateIds(Rows(db.candidates, id)));
    }
  }

  lemma {:induction false} ConsistentEvaluation(db: Db, id: string)
    requires Inv(db) && id in db.evaluations
    ensures EvaluationSettled(db, id)
  {
    assert EvaluationInv(db, id);
    if db.evaluations[id].status == Succeeded {
      var c := db.evaluations[id].checklistID;
      AcceptedHasVotes(QueryQuestions(db, c), Rows(db.judgments, id), db.checklists[c].evaluationRuns);
    }
  }

  /** Once a checklist has left running, no later step of the run changes its row, its content or its failure record. */
  lemma {:induction false} ChecklistSettlesOnce(run: seq<State>, i: nat, j: nat, id: string)
    requires Run(run) && i <= j < |run|
    requires id in Current(run[i]).checklists
    ensures id in Current(run[j]).checklists
    ensures ChecklistSettled(Current(run[i]), id)
    ensures var a, b := Current(run[i]), Current(run[j]);
            a.checklists[id].status != Running ==>
              && b.checklists[id] == a.checklists[id] && SameContent(a, b, id)
              && (ChecklistEntity(id) in a.failures <==> ChecklistEntity(id) in b.failures)
              && (ChecklistEntity(id) in a.failures ==> b.failures[ChecklistEntity(id)] == a.failures[ChecklistEntity(id)])
  {
    var a, b := Current(run[i]), Current(run[j]);
    LaterExtends(run, i, j);
    CurrentIsConsistent(run, i);
    CurrentIsConsistent(run, j);
    ChecklistStays(a, b, id);
  }

  lemma {:induction false} ChecklistStays(a: Db, b: Db, id: string)
    requires Inv(a) && Inv(b) && Extends(a, b) && id in a.checklists
    ensures id in b.checklists && ChecklistSettled(a, id)
    ensures a.checklists[id].status != Running ==>
              && b.checklists[id] == a.checklists[id] && SameContent(a, b, id)
              && (ChecklistEntity(id) in a.failures <==> ChecklistEntity(id) in b.failures)
              && (ChecklistEntity(id) in a.failures ==> b.failures[ChecklistEntity(id)] == a.failures[ChecklistEntity(id)])
  {
    assert ChecklistKept(a, b, id);
    ConsistentChecklist(a, id);
    ConsistentChecklist(b, id);
    assert ChecklistEntity(id) in a.failures ==> FailureKept(a, b, ChecklistEntity(id));
  }

  /** The same for an evaluation. */
  lemma {:induction false} EvaluationSettlesOnce(run: seq<State>, i: nat, j: nat, id: string)
    requires Run(run) && i <= j < |run|
    requires id in Current(run[i]).evaluations
    ensures id in Current(run[j]).evaluations
    ensures EvaluationSettled(Current(run[i]), id)
    ensures var a, b := Current(run[i]), Current(run[j]);
            a.evaluations[id].status != Running ==>
              && b.evaluations[id] == a.evaluations[id] && Rows(b.judgments, id) == Rows(a.judgments, id)
              && (EvaluationEntity(id) in a.failures <==> EvaluationEntity(id) in b.failures)
              && (EvaluationEntity(id) in a.failures ==> b.failures[EvaluationEntity(id)] == a.failures[EvaluationEntity(id)])
  {
    var a, b := Current(run[i]), Current(run[j]);
    LaterExtends(run, i, j);
    CurrentIsConsistent(run, i);
    CurrentIsConsistent(run, j);
    EvaluationStays(a, b, id);
  }

  lemma {:induction false} EvaluationStays(a: Db, b: Db, id: string)
    requires Inv(a) && Inv(b) && Extends(a, b) && id in a.evaluations
    ensures id in b.evaluations && EvaluationSettled(a, id)
    ensures a.evaluations[id].status != Running ==>
              && b.evaluations[id] == a.evaluations[id] && Rows(b.judgments, id) == Rows(a.judgments, id)
              && (EvaluationEntity(id) in a.failures <==> EvaluationEntity(id) in b.failures)
              && (EvaluationEntity(id) in a.failures ==> b.failures[EvaluationEntity(id)] == a.failures[EvaluationEntity(id)])
  {
    assert EvaluationKept(a, b, id);
    ConsistentEvaluation(a, id);
    ConsistentEvaluation(b, id);
    assert EvaluationEntity(id) in a.failures ==> FailureKept(a, b, EvaluationEntity(id));
  }

  // ---------------------------------------------------------------- answers

  lemma {:induction false} FinishedSeen(s: State, pid: nat)
    requires Good(s) && Finished(s, pid)
    ensures var p := s.procs[pid];
            && Ordered(p.at) && Chain(Seen(s.hist, p.at)) && LockHeld(p.call, Seen(s.hist, p.at))
            && WroteAsMeant(s.hist, p)
  {
    var p := s.procs[pid];
    assert ProcOk(s, pid);
    SeenIsChain(s.hist, p.at);
    WroteUnderLock(s.hist, p);
  }

  /** A commit found its row running, which is what holding the lock is for. */
  lemma {:induction false} WroteUnderLock(hist: seq<Db>, p: Proc)
    requires InRange(hist, p.at) && |p.at| == Slots(p.call) && WroteAsMeant(hist, p)
    ensures LockHeld(p.call, Seen(hist, p.at))
  {
    if p.call.Terminal() {
      SeenPrefix(hist, p.at, LockSlot(p.call) + 1);
    }
  }

  /** In every run, a GET answers what an instantaneous read would have answered at its first query. */
  lemma {:induction false} EveryGetIsAtomic(run: seq<State>, i: nat, pid: nat)
    requires Run(run) && i < |run| && Finished(run[i], pid)
    requires run[i].procs[pid].call.GetChecklist? || run[i].procs[pid].call.GetEvaluation?
    ensures var p := run[i].procs[pid];
            Respond(ReplyIn(run[i], pid)) == Respond(AtomicReply(p.call, run[i].hist[p.at[0]]))
    ensures var p := run[i].procs[pid];
            && (p.call.GetChecklist? ==> ShowsChecklist(Respond(ReplyIn(run[i], pid)), run[i].hist[p.at[0]], p.call.id))
            && (p.call.GetEvaluation? ==> ShowsEvaluation(Respond(ReplyIn(run[i], pid)), run[i].hist[p.at[0]], p.call.id))
  {
    ReadInRun(run, i, pid);
    var p := run[i].procs[pid];
    var seen := Seen(run[i].hist, p.at);
    if p.call.GetChecklist? {
      ChecklistGet(seen, p.call.id);
    } else {
      EvaluationGet(seen, p.call.id);
    }
  }

  lemma {:induction false} ReadInRun(run: seq<State>, i: nat, pid: nat)
    requires Run(run) && i < |run| && Finished(run[i], pid)
    requires run[i].procs[pid].call.GetChecklist? || run[i].procs[pid].call.GetEvaluation?
    ensures var p := run[i].procs[pid];
            Chain(Seen(run[i].hist, p.at)) && |p.at| == if p.call.GetChecklist? then CHECKLIST_READS else EVALUATION_READS
  {
    RunIsGood(run, i);
    FinishedSeen(run[i], pid);
  }

  lemma {:induction false} ChecklistGet(seen: seq<Db>, id: string)
    requires Chain(seen) && |seen| == CHECKLIST_READS
    ensures Respond(ReadChecklist(seen, id)) == Respond(AtomicReply(Call.GetChecklist(id), seen[0]))
    ensures ShowsChecklist(Respond(ReadChecklist(seen, id)), seen[0], id)
  {
    GetChecklistIsAtomic(seen, id);
    ChecklistShownAs(seen[0], id, ReadChecklist(seen, id));
  }

  lemma ChecklistShownAs(db: Db, id: string, read: Reply)
    requires Inv(db) && Respond(read) == Respond(ReadChecklist(Constant(db, CHECKLIST_READS), id))
    ensures Respond(read) == Respond(AtomicReply(Call.GetChecklist(id), db))
    ensures ShowsChecklist(Respond(read), db, id)
  {
    ReadsAlone(db, id);
    ChecklistIsShown(db, id);
  }

  lemma {:induction false} EvaluationGet(seen: seq<Db>, id: string)
    requires Chain(seen) && |seen| == EVALUATION_READS
    ensures Respond(ReadEvaluation(seen, id)) == Respond(AtomicReply(Call.GetEvaluation(id), seen[0]))
    ensures ShowsEvaluation(Respond(ReadEvaluation(seen, id)), seen[0], id)
  {
    GetEvaluationIsAtomic(seen, id);
    EvaluationShownAs(seen[0], id, ReadEvaluation(seen, id));
  }

  lemma EvaluationShownAs(db: Db, id: string, read: Reply)
    requires Inv(db) && Respond(read) == Respond(ReadEvaluation(Constant(db, EVALUATION_READS), id))
    ensures Respond(read) == Respond(AtomicReply(Call.GetEvaluation(id), db))
    ensures ShowsEvaluation(Respond(read), db, id)
  {
    ReadsAlone(db, id);
    EvaluationIsShown(db, id);
  }

  /** Version k is the one the call takes effect on: its reply is the reply it gets there on its own, and if it would
      write there, the next version is what it makes of it. */
  ghost predicate TakesEffectAt(hist: seq<Db>, call: Call, reply: Reply, k: nat) {
    && k < |hist|
    && reply == AtomicReply(call, hist[k])
    && (Commits(call, hist[k]) ==> k + 1 < |hist| && hist[k + 1] == AtomicResult(call, hist[k]))
  }

  lemma {:induction false} TookEffect(s: State, pid: nat) returns (k: nat)
    requires Good(s) && Finished(s, pid)
    requires !s.procs[pid].call.GetChecklist? && !s.procs[pid].call.GetEvaluation?
    ensures var p := s.procs[pid];
            p.at[0] <= k <= p.at[|p.at| - 1] && TakesEffectAt(s.hist, p.call, ReplyIn(s, pid), k)
  {
    FinishedSeen(s, pid);
    var p := s.procs[pid];
    var seen := Seen(s.hist, p.at);
    Linearizable(p.call, seen);
    k := p.at[Point(p.call, seen)];
    if Writes(p.call, seen) {
      WritesAtPoint(s.hist, p);
    }
  }

  /** In every run, every other answered call took effect at one version between its first and its last statement. */
  lemma {:induction false} EveryCallIsLinear(run: seq<State>, i: nat, pid: nat)
    requires Run(run) && i < |run| && Finished(run[i], pid)
    requires !run[i].procs[pid].call.GetChecklist? && !run[i].procs[pid].call.GetEvaluation?
    ensures var p := run[i].procs[pid];
            exists k :: p.at[0] <= k <= p.at[|p.at| - 1] && TakesEffectAt(run[i].hist, p.call, ReplyIn(run[i], pid), k)
  {
    RunIsGood(run, i);
    var k := TookEffect(run[i], pid);
  }

  /** A call that commits does so at its point. */
  lemma {:induction false} WritesAtPoint(hist: seq<Db>, p: Proc)
    requires InRange(hist, p.at) && |p.at| == Slots(p.call) && WroteAsMeant(hist, p) && Writes(p.call, Seen(hist, p.at))
    ensures CanWrite(p.call) && Point(p.call, Seen(hist, p.at)) == WriteSlot(p.call)
    ensures CommittedAt(p.call, hist, p.at[WriteSlot(p.call)])
  {
    WritesAtSlot(p.call, Seen(hist, p.at));
    SeenPrefix(hist, p.at, WriteSlot(p.call));
  }

  lemma {:induction false} WritesAtSlot(call: Call, seen: seq<Db>)
    requires |seen| == Slots(call) && Writes(call, seen)
    ensures CanWrite(call) && Point(call, seen) == WriteSlot(call) && WriteSlot(call) < |seen|
    ensures WantsWrite(call, seen[..WriteSlot(call)])
  {
    assert seen[..0] == [];
  }

  // ---------------------------------------------------------------- acknowledgements

  lemma {:induction false} AckedIsEffectiveNow(s: State, pid: nat)
    requires Good(s) && Finished(s, pid) && s.procs[pid].call.Terminal() && ReplyIn(s, pid) == Acked
    ensures Effective(s.procs[pid].call, Current(s))
  {
    var k := TookEffect(s, pid);
    EffectAtVersion(s.hist, s.procs[pid].call, ReplyIn(s, pid), k, Current(s));
  }

  lemma {:induction false} ResultVersion(hist: seq<Db>, call: Call, reply: Reply, k: nat) returns (m: nat)
    requires TakesEffectAt(hist, call, reply, k)
    ensures m < |hist| && hist[m] == AtomicResult(call, hist[k])
  {
    m := if Commits(call, hist[k]) then k + 1 else k;
  }

  lemma {:induction false} EffectAtVersion(hist: seq<Db>, call: Call, reply: Reply, k: nat, db: Db)
    requires Chain(hist) && call.Terminal() && TakesEffectAt(hist, call, reply, k) && reply == Acked
    requires db == Last(hist)
    ensures Effective(call, db)
  {
    AckedIsEffective(call, hist[k]);
    var m := ResultVersion(hist, call, reply, k);
    EffectiveLater(hist, m, call);
  }

  lemma EffectiveLater(hist: seq<Db>, k: nat, call: Call)
    requires Chain(hist) && k < |hist| && call.Terminal() && Effective(call, hist[k])
    ensures Effective(call, Last(hist))
  {
    assert Extends(hist[k], Last(hist));
    StaysEffective(call, hist[k], Last(hist));
  }

  /** An acknowledged call is what the database says at that moment of the run and at every later one. */
  lemma {:induction false} AckedIsDurable(run: seq<State>, i: nat, j: nat, pid: nat)
    requires Run(run) && i <= j < |run| && Finished(run[i], pid)
    requires run[i].procs[pid].call.Terminal() && ReplyIn(run[i], pid) == Acked
    ensures Effective(run[i].procs[pid].call, Current(run[j]))
  {
    RunIsGood(run, i);
    AckedIsEffectiveNow(run[i], pid);
    LaterExtends(run, i, j);
    StaysEffective(run[i].procs[pid].call, Current(run[i]), Current(run[j]));
  }

  /** The row holds the points of this score, over all questions of its checklist. */
  ghost predicate StoresScore(db: Db, id: string, checklistID: string, score: ScoreResult) {
    && id in db.evaluations && db.evaluations[id].checklistID == checklistID && db.evaluations[id].status == Succeeded
    && db.evaluations[id].points.Some?
    && var p := db.evaluations[id].points.value;
       && p.satisfied == score.satisfiedPoints && p.total == score.totalPossiblePoints && p.rate == score.checklistPassRate
       && PointsFit(p, |Rows(db.questions, checklistID)|, score.failedQuestionIDs)
  }

  lemma {:induction false} AckedScoreAlone(call: Call, db: Db)
    requires Inv(db) && call.SucceedEvaluation? && AtomicReply(call, db) == Acked
    ensures ValidAlone(call, db) && Effective(call, AtomicResult(call, db))
  {
    AckedIsEffective(call, db);
    EvaluationSuccessAlone(call, db);
  }

  /** A valid score that has taken effect is stored as it was sent. */
  lemma {:induction false} EffectiveScore(call: Call, db: Db)
    requires Inv(db) && call.SucceedEvaluation? && ValidAlone(call, db) && Effective(call, db)
    ensures StoresScore(db, call.id, call.checklistID, call.score)
  {
    ValidScore(call, db);
    assert EvaluationInv(db, call.id);
  }

  lemma {:induction false} ValidScore(call: Call, db: Db)
    requires Inv(db) && call.SucceedEvaluation? && ValidAlone(call, db)
    ensures var s := call.score;
            PointsFit(Points(s.satisfiedPoints, s.totalPossiblePoints, s.checklistPassRate), |Rows(db.questions, call.checklistID)|,
                      s.failedQuestionIDs)
  {
    ValidAloneIsMatch(call, db);
    assert call.checklistID in db.checklists;
    var qs := QueryQuestions(db, call.checklistID);
    AggregationIsRight(qs, call.votes, db.checklists[call.checklistID].evaluationRuns);
    PermutationBasics(qs, Rows(db.questions, call.checklistID));
  }

  /** Over whole runs: once a score is acknowledged, its points are in the row at every later moment. */
  lemma {:induction false} AckedScoreIsStored(run: seq<State>, i: nat, j: nat, pid: nat)
    requires Run(run) && i <= j < |run| && Finished(run[i], pid)
    requires run[i].procs[pid].call.SucceedEvaluation? && ReplyIn(run[i], pid) == Acked
    ensures var call := run[i].procs[pid].call; StoresScore(Current(run[j]), call.id, call.checklistID, call.score)
  {
    AckedIsDurable(run, i, j, pid);
    AckedScoreIsValid(run, i, j, pid);
    CurrentIsConsistent(run, j);
    EffectiveScore(run[i].procs[pid].call, Current(run[j]));
  }

  lemma {:induction false} AckedScoreIsValid(run: seq<State>, i: nat, j: nat, pid: nat)
    requires Run(run) && i <= j < |run| && Finished(run[i], pid)
    requires run[i].procs[pid].call.SucceedEvaluation? && ReplyIn(run[i], pid) == Acked
    ensures ValidAlone(run[i].procs[pid].call, Current(run[j]))
  {
    RunIsGood(run, i);
    LaterExtends(run, i, j);
    var k := TookEffect(run[i], pid);
    AckedScoreAtVersion(run[i].hist, run[i].procs[pid].call, ReplyIn(run[i], pid), k, Current(run[j]));
  }

  lemma {:induction false} AckedScoreAtVersion(hist: seq<Db>, call: Call, reply: Reply, k: nat, later: Db)
    requires hist != [] && Chain(hist) && call.SucceedEvaluation? && TakesEffectAt(hist, call, reply, k) && reply == Acked
    requires Extends(Last(hist), later)
    ensures ValidAlone(call, later)
  {
    AckedScoreAlone(call, hist[k]);
    assert Extends(hist[k], Last(hist));
    ExtendsTransitive(hist[k], Last(hist), later);
    MatchedLater(call, hist[k], later);
  }

  // ---------------------------------------------------------------- what is never refused

  /** A terminal call that is valid on its own is acknowledged, refused because the row ended otherwise, or told that
      there is no such row: never rejected, and no constraint stops it. */
  lemma {:induction false} ValidIsNeverRefused(call: Call, db: Db)
    requires Inv(db) && call.Terminal() && ValidAlone(call, db)
    requires call.SucceedChecklist? ==> DistinctOrdinals(call.content)
    ensures !RowExists(db, call) ==> AtomicReply(call, db) == NotFound
    ensures RowExists(db, call) ==> AtomicReply(call, db) == Acked || AtomicReply(call, db) == Conflict
    ensures IsRunning(db, call) ==> AtomicReply(call, db) == Acked
  {
    if call.SucceedEvaluation? {
      AloneIfValid(call, db);
    } else {
      TerminalAlone(call, db);
    }
    if IsRunning(db, call) {
      if call.SucceedEvaluation? {
        ValidEvaluationIsReady(call, db);
      }
      CommitsWhenReady(call, db);
    } else if RowExists(db, call) {
      RepeatedCall(call, db);
    }
  }

  /** The score a workflow computes from a checklist it loaded: every vote is accepted over what was loaded. */
  ghost predicate ComputedFrom(loaded: Reply, call: Call) {
    && call.SucceedEvaluation? && loaded.GotChecklist?
    && loaded.checklist.status == Succeeded && loaded.checklist.id == call.checklistID
    && ScoreMatches(call, loaded)
  }

  /** Loading a checklist anywhere between versions, if it had succeeded by its first query. */
  lemma {:induction false} LoadedIsFinal(seen: seq<Db>, id: string, later: Db)
    requires Chain(seen) && |seen| == CHECKLIST_READS && Extends(seen[0], later)
    requires ReadChecklist(seen, id).GotChecklist? && ReadChecklist(seen, id).checklist.status == Succeeded
    ensures ReadChecklist(Constant(later, CHECKLIST_READS), id) == ReadChecklist(seen, id)
  {
    ChainAfter(seen);
    TerminalChecklistRead(seen[0], seen, id);
    ChecklistReadKept(seen[0], later, id);
  }

  /** `SucceedEvaluation` recomputes the score from a fresh read. However the two reads interleave with other commits, it
      never disagrees with a score computed from a checklist that was loaded before. */
  lemma {:induction false} ScoreIsNeverRejected(s: State, loader: nat, pid: nat)
    requires Good(s) && Finished(s, loader) && Finished(s, pid)
    requires s.procs[loader].call.GetChecklist? && s.procs[pid].call.SucceedEvaluation?
    requires s.procs[loader].call.id == s.procs[pid].call.checklistID
    requires ComputedFrom(ReplyIn(s, loader), s.procs[pid].call)
    requires s.procs[loader].at[0] <= s.procs[pid].at[0]
    ensures ReplyIn(s, pid) in {Acked, Conflict, NotFound}
  {
    var k := TookEffect(s, pid);
    ScoredAt(s, loader, s.procs[pid].call, k);
    ValidIsNeverRefused(s.procs[pid].call, s.hist[k]);
  }

  /** Such a score is valid on every version since it was loaded. */
  lemma {:induction false} ScoredAt(s: State, loader: nat, call: Call, k: nat)
    requires Good(s) && Finished(s, loader) && s.procs[loader].call.GetChecklist?
    requires ComputedFrom(ReplyIn(s, loader), call) && s.procs[loader].call.id == call.checklistID
    requires s.procs[loader].at[0] <= k < |s.hist|
    ensures Inv(s.hist[k]) && ValidAlone(call, s.hist[k])
  {
    FinishedSeen(s, loader);
    var seen := Seen(s.hist, s.procs[loader].at);
    assert Extends(seen[0], s.hist[k]) && Inv(s.hist[k]);
    ScoredLater(seen, call, s.hist[k]);
  }

  lemma {:induction false} ScoredLater(seen: seq<Db>, call: Call, later: Db)
    requires Chain(seen) && |seen| == CHECKLIST_READS && Extends(seen[0], later)
    requires call.SucceedEvaluation? && ComputedFrom(ReadChecklist(seen, call.checklistID), call)
    ensures ValidAlone(call, later)
  {
    LoadedIsFinal(seen, call.checklistID, later);
    ValidAloneIsMatch(call, later);
  }
}
