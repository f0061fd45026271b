/** No call is ever stuck: row locks can make it wait, but never for good. */
module Progress {
  import opened Database
  import opened Calls
  import opened Protocol
  import opened Safety

  /** The next statement of the call waits for a row lock. */
  ghost predicate Waits(s: State, pid: nat)
    requires pid in s.procs && InRange(s.hist, s.procs[pid].at)
  {
    var call := s.procs[pid].call;
    WantsLock(call, Seen(s.hist, s.procs[pid].at)) && RowExists(Current(s), call) && call.Entity() in s.locks
  }

  /** A statement that does not wait can run. */
  lemma {:induction false} StatementRuns(s: State, pid: nat) returns (s': State)
    requires s.hist != [] && pid in s.procs && InRange(s.hist, s.procs[pid].at)
    requires |s.procs[pid].at| < Slots(s.procs[pid].call) && !Waits(s, pid)
    ensures RunsStatement(s, s', pid)
  {
    var p := s.procs[pid];
    var seen, procs := Seen(s.hist, p.at), s.procs[pid := Proc(p.call, p.at + [|s.hist| - 1])];
    if WantsLock(p.call, seen) {
      s' := State(s.hist, if IsRunning(Current(s), p.call) then s.locks[p.call.Entity() := pid] else s.locks, procs);
    } else if WantsWrite(p.call, seen) {
      s' := State(Longer(s.hist, p.call), if p.call.Terminal() then s.locks - {p.call.Entity()} else s.locks, procs);
    } else {
      s' := State(s.hist, s.locks, procs);
    }
  }

  /** Whoever holds a lock is about to commit, and gives the lock back by that. */
  lemma {:induction false} HolderReleases(s: State, e: Entity) returns (s': State)
    requires Good(s) && e in s.locks
    ensures s.locks[e] in s.procs && RunsStatement(s, s', s.locks[e]) && e !in s'.locks
  {
    var q := s.locks[e];
    assert LockOk(s, e) && ProcOk(s, q);
    WantsOneThing(s.procs[q].call, Seen(s.hist, s.procs[q].at));
    s' := StatementRuns(s, q);
  }

  /** Some n steps from here on answer the call. */
  ghost predicate Finishable(s: State, pid: nat, n: nat)
    requires pid in s.procs
    decreases n
  {
    Finished(s, pid) || (n > 0 && exists s' :: LeadsTo(s, s', pid) && Finishable(s', pid, n - 1))
  }

  /** A step that leaves the call in flight. */
  ghost predicate LeadsTo(s: State, s': State, pid: nat) {
    Steps(s, s') && pid in s.procs && pid in s'.procs && s'.procs[pid].call == s.procs[pid].call
  }

  lemma {:induction false} FinishableLater(s: State, pid: nat, n: nat)
    requires pid in s.procs && Finishable(s, pid, n)
    ensures Finishable(s, pid, n + 1)
    decreases n
  {
    if !Finished(s, pid) {
      var s' :| LeadsTo(s, s', pid) && Finishable(s', pid, n - 1);
      FinishableLater(s', pid, n - 1);
    }
  }

  lemma OneStatement(s: State, pid: nat, s': State, q: nat)
    requires pid in s.procs && RunsStatement(s, s', q)
    ensures LeadsTo(s, s', pid)
    ensures q != pid ==> s'.procs[pid] == s.procs[pid]
    ensures q == pid ==> |s'.procs[pid].at| == |s.procs[pid].at| + 1
  {
    assert Next(s, s', Statement(q));
  }

  function Left(s: State, pid: nat): int
    requires pid in s.procs
  {
    Slots(s.procs[pid].call) - |s.procs[pid].at|
  }

  lemma NotTheHolder(s: State, pid: nat)
    requires Good(s) && pid in s.procs && InRange(s.hist, s.procs[pid].at) && Waits(s, pid)
    ensures s.locks[s.procs[pid].call.Entity()] != pid
  {
    assert LockOk(s, s.procs[pid].call.Entity());
    WantsOneThing(s.procs[pid].call, Seen(s.hist, s.procs[pid].at));
  }

  lemma InFlight(s: State, pid: nat)
    requires Good(s) && pid in s.procs
    ensures InRange(s.hist, s.procs[pid].at) && Left(s, pid) >= 0 && (Left(s, pid) == 0 ==> Finished(s, pid))
  {
    assert ProcOk(s, pid);
  }

  /** A waiting call can go on once the holder has committed. */
  lemma {:induction false} ReleaseFirst(s: State, pid: nat) returns (s': State)
    requires Good(s) && pid in s.procs && InRange(s.hist, s.procs[pid].at) && Waits(s, pid)
    ensures Good(s') && LeadsTo(s, s', pid) && Left(s', pid) == Left(s, pid)
    ensures InRange(s'.hist, s'.procs[pid].at) && !Waits(s', pid)
  {
    var e := s.procs[pid].call.Entity();
    s' := HolderReleases(s, e);
    NotTheHolder(s, pid);
    OneStatement(s, pid, s', s.locks[e]);
    StepKeepsGood(s, s', Statement(s.locks[e]));
    InFlight(s', pid);
    FreeToGo(s', pid);
  }

  lemma FreeToGo(s: State, pid: nat)
    requires pid in s.procs && InRange(s.hist, s.procs[pid].at)
    requires s.procs[pid].call.Terminal() ==> s.procs[pid].call.Entity() !in s.locks
    ensures !Waits(s, pid)
  {
  }

  lemma FinishableAfter(s: State, s': State, pid: nat, n: nat)
    requires LeadsTo(s, s', pid) && Finishable(s', pid, n)
    ensures Finishable(s, pid, n + 1)
  {
  }

  /** From every reachable state, whatever locks are held and whoever holds them, every call in flight can be answered
      within two steps for each statement it has left. */
  lemma {:induction false} EveryCallCanFinish(s: State, pid: nat)
    requires Good(s) && pid in s.procs
    ensures Left(s, pid) >= 0 && Finishable(s, pid, 2 * Left(s, pid))
    decreases Left(s, pid), 2
  {
    InFlight(s, pid);
    if Left(s, pid) > 0 {
      if Waits(s, pid) {
        FinishAfterWaiting(s, pid);
      } else {
        FinishByStatement(s, pid);
        FinishableLater(s, pid, 2 * Left(s, pid) - 1);
      }
    }
  }

  lemma {:induction false} FinishAfterWaiting(s: State, pid: nat)
    requires Good(s) && pid in s.procs && InRange(s.hist, s.procs[pid].at) && Left(s, pid) > 0 && Waits(s, pid)
    ensures Finishable(s, pid, 2 * Left(s, pid))
    decreases Left(s, pid), 1
  {
    var s' := ReleaseFirst(s, pid);
    var n := 2 * Left(s, pid) - 1;
    FinishByStatement(s', pid);
    FinishableAfter(s, s', pid, n);
  }

  lemma {:induction false} FinishByStatement(s: State, pid: nat)
    requires Good(s) && pid in s.procs && InRange(s.hist, s.procs[pid].at) && Left(s, pid) > 0 && !Waits(s, pid)
    ensures Finishable(s, pid, 2 * Left(s, pid) - 1)
    decreases Left(s, pid), 0
  {
    var s' := StatementNext(s, pid);
    var n := 2 * Left(s', pid);
    EveryCallCanFinish(s', pid);
    FinishableAfter(s, s', pid, n);
  }

  lemma {:induction false} StatementNext(s: State, pid: nat) returns (s': State)
    requires Good(s) && pid in s.procs && InRange(s.hist, s.procs[pid].at) && Left(s, pid) > 0 && !Waits(s, pid)
    ensures Good(s') && LeadsTo(s, s', pid) && Left(s', pid) == Left(s, pid) - 1
  {
    s' := StatementRuns(s, pid);
    OneStatement(s, pid, s', pid);
    StepKeepsGood(s, s', Statement(pid));
  }

  /** In particular in every state of every run. */
  lemma {:induction false} NoCallIsStuck(run: seq<State>, i: nat, pid: nat)
    requires Run(run) && i < |run| && pid in run[i].procs
    ensures Left(run[i], pid) >= 0 && Finishable(run[i], pid, 2 * Left(run[i], pid))
  {
    RunIsGood(run, i);
    EveryCallCanFinish(run[i], pid);
  }
}
