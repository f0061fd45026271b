/** Runs: calls in flight, their statements interleaved, row locks, commits, and callers that go away before the reply. */
module Protocol {
  import opened Database
  import opened Calls
  import opened Effects
  import opened Reads
  import opened Store
  import opened Repeats
  import opened Linear

  /** A call in flight: at[k] is the version of the database its statement k saw. */
  datatype Proc = Proc(call: Call, at: seq<nat>)

  /** All versions of the database so far, who holds which row lock, and the calls in flight or answered. */
  datatype State = State(hist: seq<Db>, locks: map<Entity, nat>, procs: map<nat, Proc>)

  /** Begin any call at any time, run its next statement, or lose it: its connection, or just its reply. */
  datatype Step = Begin(pid: nat, call: Call) | Statement(pid: nat) | Lose(pid: nat)

  ghost predicate InRange<T>(hist: seq<T>, at: seq<nat>) {
    forall k | 0 <= k < |at| :: at[k] < |hist|
  }

  ghost function Seen<T>(hist: seq<T>, at: seq<nat>): (seen: seq<T>)
    requires InRange(hist, at)
    ensures |seen| == |at| && forall k | 0 <= k < |at| :: seen[k] == hist[at[k]]
  {
    seq(|at|, k requires 0 <= k < |at| => hist[at[k]])
  }

  ghost predicate Init(s: State) {
    s == State([EMPTY_DB], map[], map[])
  }

  /** The last version. */
  function Last(hist: seq<Db>): Db {
    if hist == [] then EMPTY_DB else hist[|hist| - 1]
  }

  function Current(s: State): Db {
    Last(s.hist)
  }

  /** The versions after a call has run its commit: one more, unless a constraint refused it. */
  ghost function Longer(hist: seq<Db>, call: Call): (longer: seq<Db>)
    requires hist != []
    ensures hist <= longer
  {
    var effect := Effect(call, Last(hist));
    if effect.Some? then hist + [effect.value] else hist
  }

  /** The statement sees the current version. It waits for a row lock another call holds, takes the lock if the row is
      running, and gives it back when it commits or rolls back. */
  ghost predicate RunsStatement(s: State, s': State, pid: nat) {
    && s.hist != [] && pid in s.procs && InRange(s.hist, s.procs[pid].at)
    && var p, db := s.procs[pid], Current(s);
       var seen := Seen(s.hist, p.at);
       && |p.at| < Slots(p.call)
       && s'.procs == s.procs[pid := Proc(p.call, p.at + [|s.hist| - 1])]
       && if WantsLock(p.call, seen) then
            && (RowExists(db, p.call) ==> p.call.Entity() !in s.locks)
            && s'.locks == (if IsRunning(db, p.call) then s.locks[p.call.Entity() := pid] else s.locks)
            && s'.hist == s.hist
          else if WantsWrite(p.call, seen) then
            && s'.locks == (if p.call.Terminal() then s.locks - {p.call.Entity()} else s.locks)
            && s'.hist == Longer(s.hist, p.call)
          else
            s'.locks == s.locks && s'.hist == s.hist
  }

  ghost predicate Next(s: State, s': State, step: Step) {
    match step
    case Begin(pid, call) =>
      pid !in s.procs && s' == s.(procs := s.procs[pid := Proc(call, [])])
    case Statement(pid) => RunsStatement(s, s', pid)
    case Lose(pid) =>
      && s'.hist == s.hist && s'.procs == s.procs - {pid}
      && s'.locks == map e | e in s.locks && s.locks[e] != pid :: s.locks[e]
  }

  // ---------------------------------------------------------------- the invariant

  ghost predicate Ordered(at: seq<nat>) {
    forall i, j | 0 <= i <= j < |at| :: at[i] <= at[j]
  }

  ghost predicate HoldsLock(hist: seq<Db>, p: Proc)
    requires InRange(hist, p.at)
  {
    p.call.Terminal() && WantsWrite(p.call, Seen(hist, p.at))
  }

  predicate CanWrite(call: Call) {
    call.CreateChecklist? || call.CreateEvaluation? || call.Terminal()
  }

  /** The statement that would commit. */
  function WriteSlot(call: Call): nat
    requires CanWrite(call)
  {
    match call
    case CreateChecklist(_, _) => 0
    case CreateEvaluation(_, _) => 1
    case _ => LockSlot(call) + 1
  }

  /** The commit was run on version k: its row was still running then, and the next version is what it made of it. */
  ghost predicate CommittedAt(call: Call, hist: seq<Db>, k: nat)
    requires k < |hist|
  {
    && (call.Terminal() ==> IsRunning(hist[k], call))
    && (Effect(call, hist[k]).Some? ==> k + 1 < |hist| && hist[k + 1] == Effect(call, hist[k]).value)
  }

  ghost predicate WroteAsMeant(hist: seq<Db>, p: Proc)
    requires InRange(hist, p.at)
  {
    CanWrite(p.call) && |p.at| > WriteSlot(p.call) && WantsWrite(p.call, Seen(hist, p.at[..WriteSlot(p.call)])) ==>
      CommittedAt(p.call, hist, p.at[WriteSlot(p.call)])
  }

  ghost predicate ProcOk(s: State, pid: nat)
    requires pid in s.procs
  {
    var p := s.procs[pid];
    && InRange(s.hist, p.at) && Ordered(p.at) && |p.at| <= Slots(p.call)
    && WroteAsMeant(s.hist, p)
    && (HoldsLock(s.hist, p) ==> p.call.Entity() in s.locks && s.locks[p.call.Entity()] == pid)
  }

  ghost predicate LockOk(s: State, e: Entity)
    requires e in s.locks
  {
    && s.locks[e] in s.procs
    && var p := s.procs[s.locks[e]];
       p.call.Terminal() && p.call.Entity() == e && IsRunning(Current(s), p.call)
       && InRange(s.hist, p.at) && HoldsLock(s.hist, p)
  }

  ghost predicate GoodHistory(hist: seq<Db>) {
    hist != [] && Chain(hist)
  }

  ghost predicate GoodProcs(s: State) {
    forall pid | pid in s.procs :: ProcOk(s, pid)
  }

  ghost predicate GoodLocks(s: State) {
    forall e | e in s.locks :: LockOk(s, e)
  }

  ghost predicate Good(s: State) {
    GoodHistory(s.hist) && GoodProcs(s) && GoodLocks(s)
  }

  // ---------------------------------------------------------------- every step keeps it

  lemma SeenExtended<T>(hist: seq<T>, longer: seq<T>, at: seq<nat>)
    requires InRange(hist, at) && hist <= longer
    ensures InRange(longer, at) && Seen(longer, at) == Seen(hist, at)
  {
  }

  lemma SeenAppended<T>(hist: seq<T>, at: seq<nat>, k: nat)
    requires InRange(hist, at) && k < |hist|
    ensures InRange(hist, at + [k]) && Seen(hist, at + [k]) == Seen(hist, at) + [hist[k]]
  {
  }

  lemma SeenPrefix<T>(hist: seq<T>, at: seq<nat>, n: nat)
    requires InRange(hist, at) && n <= |at|
    ensures InRange(hist, at[..n]) && Seen(hist, at[..n]) == Seen(hist, at)[..n]
  {
  }

  /** What a call in flight has seen is a chain, and the current version comes after all of it. */
  lemma SeenIsChain(hist: seq<Db>, at: seq<nat>)
    requires hist != [] && Chain(hist) && InRange(hist, at) && Ordered(at)
    ensures Chain(Seen(hist, at))
    ensures forall i | 0 <= i < |at| :: Extends(Seen(hist, at)[i], Last(hist))
  {
    var seen := Seen(hist, at);
    forall i, j | 0 <= i <= j < |seen| ensures Extends(seen[i], seen[j]) {
      assert at[i] <= at[j];
    }
    forall i | 0 <= i < |seen| ensures Inv(seen[i]) && Extends(seen[i], Last(hist)) {
      assert at[i] <= |hist| - 1;
    }
  }

  /** When a call gets to commit, it would get to commit on its own now. */
  lemma {:induction false} WritesNow(call: Call, seen: seq<Db>, db: Db)
    requires Chain(seen) && Inv(db) && forall i | 0 <= i < |seen| :: Extends(seen[i], db)
    requires WantsWrite(call, seen) && (call.Terminal() ==> IsRunning(db, call))
    ensures AtomicWrites(call, db)
  {
    if call.CreateEvaluation? {
      CreationWritesNow(call, seen, db);
    } else if call.SucceedEvaluation? {
      ScoredWritesNow(call, seen, db);
    } else if LocksFirst(call) {
      LockFirstWritesNow(call, seen, db);
    }
  }

  lemma {:induction false} CreationWritesNow(call: Call, seen: seq<Db>, db: Db)
    requires call.CreateEvaluation? && WantsWrite(call, seen) && Extends(seen[0], db)
    ensures AtomicWrites(call, db)
  {
    QueriesKept(seen[0], db, call.checklistID);
  }

  lemma {:induction false} ScoredWritesNow(call: Call, seen: seq<Db>, db: Db)
    requires call.SucceedEvaluation? && Chain(seen) && forall i | 0 <= i < |seen| :: Extends(seen[i], db)
    requires WantsWrite(call, seen) && IsRunning(db, call)
    ensures AtomicWrites(call, db)
  {
    WritesAlone(call, db);
    ScoredBeforeWrite(call, seen);
    assert Inv(seen[5]) && Extends(seen[5], db);
    MatchedLater(call, seen[5], db);
  }

  lemma {:induction false} LockFirstWritesNow(call: Call, seen: seq<Db>, db: Db)
    requires LocksFirst(call) && WantsWrite(call, seen) && IsRunning(db, call)
    ensures AtomicWrites(call, db)
  {
    WritesAlone(call, db);
  }

  lemma {:induction false} ScoredBeforeWrite(call: Call, seen: seq<Db>)
    requires call.SucceedEvaluation? && Chain(seen) && WantsWrite(call, seen)
    ensures ValidAlone(call, seen[5])
  {
    ChainSlice(seen, 0, CHECKLIST_READS);
    ScoredQueries(call, seen[..CHECKLIST_READS]);
  }

  /** A commit leaves every other locked row running. */
  lemma {:induction false} OthersStillRunning(call: Call, db: Db, other: Call)
    requires Effect(call, db).Some? && other.Terminal() && IsRunning(db, other)
    requires call.Terminal() ==> call.Entity() != other.Entity()
    ensures IsRunning(Effect(call, db).value, other)
  {
    CommitOnlyChanges(call, db);
    match other {
      case SucceedChecklist(id, _, _) => assert SameChecklist(db, Effect(call, db).value, id);
      case FailChecklist(id, _) => assert SameChecklist(db, Effect(call, db).value, id);
      case SucceedEvaluation(id, _, _, _) => assert SameEvaluation(db, Effect(call, db).value, id);
      case FailEvaluation(id, _, _) => assert SameEvaluation(db, Effect(call, db).value, id);
    }
  }

  lemma {:induction false} HistoryGrows(hist: seq<Db>, call: Call)
    requires hist != [] && Chain(hist) && Commits(call, Last(hist))
    ensures Chain(hist + [Effect(call, Last(hist)).value])
  {
    ResultIsSafe(call, Last(hist));
    AppendToChain(hist, AtomicResult(call, Last(hist)));
  }

  lemma {:induction false} AppendToChain(hist: seq<Db>, after: Db)
    requires hist != [] && Chain(hist) && Inv(after) && Extends(Last(hist), after)
    ensures Chain(hist + [after])
  {
    var longer := hist + [after];
    forall i, j | 0 <= i <= j < |longer| ensures Extends(longer[i], longer[j]) {
      if i < |hist| == j {
        ExtendsTransitive(hist[i], Last(hist), after);
      } else if i == |hist| {
        ExtendsReflexive(after);
      }
    }
  }

  /** A call that does nothing in a step stays in order if its lock stays its own. */
  lemma {:induction false} BystanderKept(s: State, s': State, pid: nat)
    requires pid in s.procs && ProcOk(s, pid) && pid in s'.procs && s'.procs[pid] == s.procs[pid]
    requires s.hist <= s'.hist
    requires var p := s.procs[pid];
             HoldsLock(s.hist, p) ==> p.call.Entity() in s'.locks && s'.locks[p.call.Entity()] == pid
    ensures ProcOk(s', pid)
  {
    SeenExtended(s.hist, s'.hist, s.procs[pid].at);
    WroteLonger(s.hist, s'.hist, s.procs[pid]);
  }

  lemma {:induction false} WroteLonger(hist: seq<Db>, longer: seq<Db>, p: Proc)
    requires InRange(hist, p.at) && hist <= longer && WroteAsMeant(hist, p)
    ensures InRange(longer, p.at) && WroteAsMeant(longer, p)
  {
    if CanWrite(p.call) && |p.at| > WriteSlot(p.call) {
      SeenExtended(hist, longer, p.at[..WriteSlot(p.call)]);
    }
  }

  lemma {:induction false} BeginKeepsGood(s: State, s': State, pid: nat, call: Call)
    requires GoodProcs(s) && GoodLocks(s) && Next(s, s', Begin(pid, call))
    ensures GoodProcs(s') && GoodLocks(s')
  {
    forall q | q in s'.procs ensures ProcOk(s', q) {
      if q == pid {
        NewCallIsOk(s', pid);
      } else {
        assert ProcOk(s, q);
        BystanderKept(s, s', q);
      }
    }
    forall e | e in s'.locks ensures LockOk(s', e) {
      assert LockOk(s, e);
      LockKept(s, s', e);
    }
  }

  lemma NewCallIsOk(s: State, pid: nat)
    requires pid in s.procs && s.procs[pid].at == []
    ensures ProcOk(s, pid)
  {
    var p := s.procs[pid];
    if p.call.Terminal() {
      assert !WantsWrite(p.call, Seen(s.hist, []));
    }
  }

  lemma {:induction false} LoseKeepsGood(s: State, s': State, pid: nat)
    requires GoodProcs(s) && GoodLocks(s) && Next(s, s', Lose(pid))
    ensures GoodProcs(s') && GoodLocks(s')
  {
    forall q | q in s'.procs ensures ProcOk(s', q) {
      assert ProcOk(s, q);
      BystanderKept(s, s', q);
    }
    forall e | e in s'.locks ensures LockOk(s', e) {
      assert LockOk(s, e);
      LockKept(s, s', e);
    }
  }

  /** A call wants to write after its lock exactly when it was validated and found the row running. */
  lemma {:induction false} LockThenWrite(call: Call, seen: seq<Db>, db: Db)
    requires call.Terminal() && |seen| == LockSlot(call)
    ensures WantsWrite(call, seen + [db]) <==> WantsLock(call, seen) && IsRunning(db, call)
  {
    assert (seen + [db])[|seen|] == db;
    if call.SucceedEvaluation? {
      assert (seen + [db])[..CHECKLIST_READS] == seen == seen[..CHECKLIST_READS];
    }
  }

  lemma WantsOneThing(call: Call, seen: seq<Db>)
    ensures !(WantsLock(call, seen) && WantsWrite(call, seen))
    ensures WantsWrite(call, seen) ==> CanWrite(call) && |seen| == WriteSlot(call)
  {
  }

  /** The call that runs a statement sees versions in order. */
  lemma ActorOrdered(hist: seq<Db>, at: seq<nat>)
    requires hist != [] && InRange(hist, at) && Ordered(at)
    ensures InRange(hist, at + [|hist| - 1]) && Ordered(at + [|hist| - 1])
  {
  }

  /** A statement that was not the commit changes nothing about an earlier one. */
  lemma {:induction false} WroteBefore(hist: seq<Db>, p: Proc)
    requires hist != [] && InRange(hist, p.at)
    requires WroteAsMeant(hist, p) && !WantsWrite(p.call, Seen(hist, p.at))
    ensures WroteAsMeant(hist, Proc(p.call, p.at + [|hist| - 1]))
  {
    var at := p.at + [|hist| - 1];
    if CanWrite(p.call) && |at| > WriteSlot(p.call) {
      var n := WriteSlot(p.call);
      assert at[..n] == p.at[..n];
      if |p.at| == n {
        assert p.at[..n] == p.at;
      }
    }
  }

  /** A lock is held by exactly one call. */
  lemma LockOwner(s: State, pid: nat, e: Entity)
    requires pid in s.procs && ProcOk(s, pid) && e in s.locks && LockOk(s, e)
    ensures s.locks[e] == pid ==> HoldsLock(s.hist, s.procs[pid]) && s.procs[pid].call.Entity() == e
  {
  }

  lemma {:induction false} LockKept(s: State, s': State, e: Entity)
    requires e in s.locks && LockOk(s, e) && e in s'.locks && s'.locks[e] == s.locks[e]
    requires s'.hist == s.hist
    requires s.locks[e] in s'.procs && s'.procs[s.locks[e]] == s.procs[s.locks[e]]
    ensures LockOk(s', e)
  {
  }

  // ---------------------------------------------------------------- a statement that only reads

  ghost predicate OnlyReads(s: State, s': State, pid: nat) {
    && RunsStatement(s, s', pid)
    && var seen := Seen(s.hist, s.procs[pid].at);
       !WantsLock(s.procs[pid].call, seen) && !WantsWrite(s.procs[pid].call, seen)
  }

  lemma {:induction false} ReaderOk(s: State, s': State, pid: nat)
    requires OnlyReads(s, s', pid) && ProcOk(s, pid)
    ensures ProcOk(s', pid)
  {
    var p, n := s.procs[pid], |s.hist| - 1;
    ActorOrdered(s.hist, p.at);
    WroteBefore(s.hist, p);
    SeenAppended(s.hist, p.at, n);
    if p.call.Terminal() && |p.at| == LockSlot(p.call) {
      LockThenWrite(p.call, Seen(s.hist, p.at), s.hist[n]);
    }
  }

  lemma {:induction false} ReadKeepsGood(s: State, s': State, pid: nat)
    requires GoodProcs(s) && GoodLocks(s) && OnlyReads(s, s', pid)
    ensures GoodProcs(s') && GoodLocks(s')
  {
    assert ProcOk(s, pid);
    forall q | q in s'.procs ensures ProcOk(s', q) {
      if q == pid {
        ReaderOk(s, s', pid);
      } else {
        assert ProcOk(s, q);
        BystanderKept(s, s', q);
      }
    }
    forall e | e in s'.locks ensures LockOk(s', e) {
      assert LockOk(s, e);
      LockOwner(s, pid, e);
      LockKept(s, s', e);
    }
  }

  // ---------------------------------------------------------------- a statement that locks

  ghost predicate Locks(s: State, s': State, pid: nat) {
    RunsStatement(s, s', pid) && WantsLock(s.procs[pid].call, Seen(s.hist, s.procs[pid].at))
  }

  lemma {:induction false} LockerOk(s: State, s': State, pid: nat)
    requires Locks(s, s', pid) && ProcOk(s, pid)
    ensures ProcOk(s', pid)
    ensures IsRunning(Current(s), s.procs[pid].call) ==> LockOk(s', s.procs[pid].call.Entity())
  {
    var p, n := s.procs[pid], |s.hist| - 1;
    ActorOrdered(s.hist, p.at);
    WantsOneThing(p.call, Seen(s.hist, p.at));
    WroteBefore(s.hist, p);
    SeenAppended(s.hist, p.at, n);
    LockThenWrite(p.call, Seen(s.hist, p.at), s.hist[n]);
  }

  lemma {:induction false} LockKeepsProcs(s: State, s': State, pid: nat)
    requires GoodProcs(s) && Locks(s, s', pid)
    ensures GoodProcs(s')
  {
    forall q | q in s'.procs ensures ProcOk(s', q) {
      assert ProcOk(s, q);
      if q == pid {
        LockerOk(s, s', pid);
      } else {
        BystanderKept(s, s', q);
      }
    }
  }

  lemma {:induction false} LockKeepsLocks(s: State, s': State, pid: nat)
    requires GoodLocks(s) && Locks(s, s', pid) && ProcOk(s, pid)
    ensures GoodLocks(s')
  {
    LockerOk(s, s', pid);
    WantsOneThing(s.procs[pid].call, Seen(s.hist, s.procs[pid].at));
    forall e | e in s'.locks ensures LockOk(s', e) {
      if e in s.locks {
        assert LockOk(s, e);
        LockOwner(s, pid, e);
        LockKept(s, s', e);
      }
    }
  }

  // ---------------------------------------------------------------- a statement that commits

  ghost predicate Writing(s: State, s': State, pid: nat) {
    RunsStatement(s, s', pid) && WantsWrite(s.procs[pid].call, Seen(s.hist, s.procs[pid].at))
  }

  /** The writer holds its row's lock, so the row is still running. */
  lemma {:induction false} WriterHoldsLock(s: State, pid: nat)
    requires GoodLocks(s) && pid in s.procs && ProcOk(s, pid)
    requires s.procs[pid].call.Terminal() && WantsWrite(s.procs[pid].call, Seen(s.hist, s.procs[pid].at))
    ensures var call := s.procs[pid].call;
            call.Entity() in s.locks && s.locks[call.Entity()] == pid && IsRunning(Current(s), call)
  {
    assert HoldsLock(s.hist, s.procs[pid]);
    assert LockOk(s, s.procs[pid].call.Entity());
  }

  lemma {:induction false} CommitRecorded(hist: seq<Db>, p: Proc)
    requires hist != [] && InRange(hist, p.at) && WantsWrite(p.call, Seen(hist, p.at))
    requires p.call.Terminal() ==> IsRunning(Last(hist), p.call)
    ensures var longer, at := Longer(hist, p.call), p.at + [|hist| - 1];
            && InRange(longer, at) && WroteAsMeant(longer, Proc(p.call, at))
            && !HoldsLock(longer, Proc(p.call, at))
  {
    var longer, at := Longer(hist, p.call), p.at + [|hist| - 1];
    WantsOneThing(p.call, Seen(hist, p.at));
    WantsOneThing(p.call, Seen(longer, at));
    assert at[WriteSlot(p.call)] == |hist| - 1;
  }

  lemma {:induction false} WriterOk(s: State, s': State, pid: nat)
    requires Writing(s, s', pid) && ProcOk(s, pid)
    requires s.procs[pid].call.Terminal() ==> IsRunning(Current(s), s.procs[pid].call)
    ensures ProcOk(s', pid)
  {
    ActorOrdered(s.hist, s.procs[pid].at);
    CommitRecorded(s.hist, s.procs[pid]);
  }

  lemma {:induction false} CommitsNow(hist: seq<Db>, p: Proc)
    requires hist != [] && Chain(hist) && InRange(hist, p.at) && Ordered(p.at) && WantsWrite(p.call, Seen(hist, p.at))
    requires p.call.Terminal() ==> IsRunning(Last(hist), p.call)
    ensures AtomicWrites(p.call, Last(hist))
  {
    SeenIsChain(hist, p.at);
    WritesNow(p.call, Seen(hist, p.at), Last(hist));
  }

  lemma RunningAfterWrite(hist: seq<Db>, call: Call, other: Call)
    requires hist != [] && other.Terminal() && IsRunning(Last(hist), other)
    requires call.Terminal() ==> call.Entity() != other.Entity()
    ensures var longer := Longer(hist, call); IsRunning(Last(longer), other)
  {
    if Effect(call, Last(hist)).Some? {
      OthersStillRunning(call, Last(hist), other);
    }
  }

  lemma {:induction false} HoldsLockLonger(hist: seq<Db>, longer: seq<Db>, p: Proc)
    requires InRange(hist, p.at) && HoldsLock(hist, p) && hist <= longer
    ensures InRange(longer, p.at) && HoldsLock(longer, p)
  {
    SeenExtended(hist, longer, p.at);
  }

  lemma {:induction false} LockSurvivesWrite(s: State, s': State, pid: nat, e: Entity)
    requires Writing(s, s', pid) && e in s.locks && LockOk(s, e) && e in s'.locks && s.locks[e] != pid
    ensures LockOk(s', e)
  {
    WantsOneThing(s.procs[pid].call, Seen(s.hist, s.procs[pid].at));
    assert s'.hist == Longer(s.hist, s.procs[pid].call) && s'.procs[s.locks[e]] == s.procs[s.locks[e]];
    HoldsLockLonger(s.hist, s'.hist, s.procs[s.locks[e]]);
    RunningAfterWrite(s.hist, s.procs[pid].call, s.procs[s.locks[e]].call);
  }

  /** Giving up the writer's lock takes no other lock away. */
  lemma {:induction false} OtherLockKept(s: State, s': State, pid: nat, q: nat)
    requires Writing(s, s', pid) && GoodLocks(s) && ProcOk(s, pid) && q in s.procs && q != pid && ProcOk(s, q)
    requires HoldsLock(s.hist, s.procs[q])
    ensures s.procs[q].call.Entity() in s'.locks && s'.locks[s.procs[q].call.Entity()] == q
  {
    if s.procs[pid].call.Terminal() {
      WriterHoldsLock(s, pid);
    }
  }

  lemma {:induction false} WriteKeepsBystander(s: State, s': State, pid: nat, q: nat)
    requires Writing(s, s', pid) && GoodLocks(s) && ProcOk(s, pid) && q in s.procs && q != pid && ProcOk(s, q)
    ensures ProcOk(s', q)
  {
    if HoldsLock(s.hist, s.procs[q]) {
      OtherLockKept(s, s', pid, q);
    }
    BystanderKept(s, s', q);
  }

  lemma {:induction false} WriteKeepsWriter(s: State, s': State, pid: nat)
    requires Writing(s, s', pid) && GoodLocks(s) && ProcOk(s, pid)
    ensures ProcOk(s', pid)
  {
    if s.procs[pid].call.Terminal() {
      WriterHoldsLock(s, pid);
    }
    WriterOk(s, s', pid);
  }

  lemma {:induction false} WriteKeepsProcs(s: State, s': State, pid: nat)
    requires GoodProcs(s) && GoodLocks(s) && Writing(s, s', pid)
    ensures GoodProcs(s')
  {
    forall q | q in s'.procs ensures ProcOk(s', q) {
      assert ProcOk(s, q) && ProcOk(s, pid);
      if q == pid {
        WriteKeepsWriter(s, s', pid);
      } else {
        WriteKeepsBystander(s, s', pid, q);
      }
    }
  }

  lemma {:induction false} WriteKeepsLocks(s: State, s': State, pid: nat)
    requires GoodProcs(s) && GoodLocks(s) && Writing(s, s', pid)
    ensures GoodLocks(s')
  {
    assert ProcOk(s, pid);
    forall e | e in s'.locks ensures LockOk(s', e) {
      assert LockOk(s, e);
      LockOwner(s, pid, e);
      LockSurvivesWrite(s, s', pid, e);
    }
  }

  lemma WritingHistory(s: State, s': State, pid: nat)
    requires Writing(s, s', pid)
    ensures s'.hist == Longer(s.hist, s.procs[pid].call)
  {
    WantsOneThing(s.procs[pid].call, Seen(s.hist, s.procs[pid].at));
  }

  lemma {:induction false} CommitKeepsHistory(hist: seq<Db>, p: Proc)
    requires GoodHistory(hist) && InRange(hist, p.at) && Ordered(p.at) && WantsWrite(p.call, Seen(hist, p.at))
    requires p.call.Terminal() ==> IsRunning(Last(hist), p.call)
    ensures GoodHistory(Longer(hist, p.call))
  {
    CommitsNow(hist, p);
    if Effect(p.call, Last(hist)).Some? {
      HistoryGrows(hist, p.call);
    }
  }

  lemma {:induction false} WriterIsReady(s: State, s': State, pid: nat)
    requires GoodLocks(s) && pid in s.procs && ProcOk(s, pid) && Writing(s, s', pid)
    ensures var p := s.procs[pid];
            && InRange(s.hist, p.at) && Ordered(p.at) && WantsWrite(p.call, Seen(s.hist, p.at))
            && (p.call.Terminal() ==> IsRunning(Last(s.hist), p.call))
  {
    if s.procs[pid].call.Terminal() {
      WriterHoldsLock(s, pid);
    }
  }

  // ---------------------------------------------------------------- whole runs

  lemma {:induction false} WriteKeepsHistory(s: State, s': State, pid: nat)
    requires GoodHistory(s.hist) && GoodLocks(s) && pid in s.procs && ProcOk(s, pid) && Writing(s, s', pid)
    ensures GoodHistory(s'.hist)
  {
    WriterIsReady(s, s', pid);
    WritingHistory(s, s', pid);
    CommitKeepsHistory(s.hist, s.procs[pid]);
  }

  lemma {:induction false} StatementKeepsGood(s: State, s': State, pid: nat)
    requires Good(s) && RunsStatement(s, s', pid)
    ensures Good(s') && s.hist <= s'.hist
  {
    assert ProcOk(s, pid);
    if WantsLock(s.procs[pid].call, Seen(s.hist, s.procs[pid].at)) {
      LockKeepsProcs(s, s', pid);
      LockKeepsLocks(s, s', pid);
    } else if WantsWrite(s.procs[pid].call, Seen(s.hist, s.procs[pid].at)) {
      WritingHistory(s, s', pid);
      WriteKeepsHistory(s, s', pid);
      WriteKeepsProcs(s, s', pid);
      WriteKeepsLocks(s, s', pid);
    } else {
      ReadKeepsGood(s, s', pid);
    }
  }

  lemma {:induction false} StepKeepsGood(s: State, s': State, step: Step)
    requires Good(s) && Next(s, s', step)
    ensures Good(s') && s.hist <= s'.hist
  {
    match step {
      case Begin(pid, call) => BeginKeepsGood(s, s', pid, call);
      case Lose(pid) => LoseKeepsGood(s, s', pid);
      case Statement(pid) => StatementKeepsGood(s, s', pid);
    }
  }

  ghost predicate Steps(s: State, s': State) {
    exists step :: Next(s, s', step)
  }

  ghost predicate Run(run: seq<State>) {
    run != [] && Init(run[0]) && forall i, j | 0 <= i < j < |run| && j == i + 1 :: Steps(run[i], run[j])
  }

  lemma InitIsGood(s: State)
    requires Init(s)
    ensures Good(s)
  {
    EmptyDbInv();
    ExtendsReflexive(EMPTY_DB);
  }

  lemma {:induction false} RunIsGood(run: seq<State>, i: nat)
    requires Run(run) && i < |run|
    ensures Good(run[i])
  {
    if i == 0 {
      InitIsGood(run[0]);
    } else {
      RunIsGood(run, i - 1);
      StepsKeepGood(run[i - 1], run[i]);
    }
  }

  /** A step adds at most one version, at the end, so it keeps what the current version has settled. */
  lemma CurrentExtends(s: State, s': State)
    requires s.hist != [] && Good(s') && s.hist <= s'.hist
    ensures Extends(Current(s), Current(s'))
  {
    assert s'.hist[|s.hist| - 1] == Current(s);
  }

  lemma {:induction false} StepsKeepGood(s: State, s': State)
    requires Good(s) && Steps(s, s')
    ensures Good(s') && Extends(Current(s), Current(s'))
  {
    var step :| Next(s, s', step);
    StepKeepsGood(s, s', step);
    CurrentExtends(s, s');
  }

  /** The database of a later moment of a run keeps what an earlier one has settled. */
  lemma {:induction false} LaterExtends(run: seq<State>, i: nat, j: nat)
    requires Run(run) && i <= j < |run|
    ensures Extends(Current(run[i]), Current(run[j]))
    decreases j
  {
    if i < j {
      LaterExtends(run, i, j - 1);
      NextExtends(run, j);
      ExtendsTransitive(Current(run[i]), Current(run[j - 1]), Current(run[j]));
    } else {
      ExtendsReflexive(Current(run[i]));
    }
  }

  lemma NextExtends(run: seq<State>, j: nat)
    requires Run(run) && 0 < j < |run|
    ensures Extends(Current(run[j - 1]), Current(run[j]))
  {
    RunIsGood(run, j - 1);
    StepsKeepGood(run[j - 1], run[j]);
  }

  lemma CurrentIsConsistent(run: seq<State>, i: nat)
    requires Run(run) && i < |run|
    ensures Inv(Current(run[i]))
  {
    RunIsGood(run, i);
  }
}
