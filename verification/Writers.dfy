/** Who wrote what: every version of the database was committed by a call that had been begun, and no call commits twice. */
module Writers {
  import opened Database
  import opened Calls
  import opened Repeats
  import opened Protocol

  /** The call of this number was begun by step b and has been in flight since. Numbers of lost calls may be used again. */
  ghost predicate BegunAt(run: seq<State>, b: nat, i: nat, pid: nat) {
    && 0 < b <= i < |run| && pid in run[b].procs
    && (forall l | b <= l <= i :: pid in run[l].procs && run[l].procs[pid].call == run[b].procs[pid].call)
    && Next(run[b - 1], run[b], Begin(pid, run[b].procs[pid].call))
  }

  /** Step m is the commit of call pid, and made version k. */
  ghost predicate WroteVersion(run: seq<State>, m: nat, pid: nat, k: nat) {
    && 0 < m < |run| && RunsStatement(run[m - 1], run[m], pid)
    && |run[m - 1].hist| == k && |run[m].hist| == k + 1
  }

  function WriterCall(run: seq<State>, m: nat, pid: nat): Call
    requires 0 < m < |run| && pid in run[m - 1].procs
  {
    run[m - 1].procs[pid].call
  }

  lemma {:induction false} BegunFrom(run: seq<State>, i: nat, pid: nat) returns (b: nat)
    requires Run(run) && i < |run| && pid in run[i].procs
    ensures BegunAt(run, b, i, pid)
  {
    if i > 0 {
      var step :| Next(run[i - 1], run[i], step);
      if step.Begin? && step.pid == pid {
        b := i;
      } else {
        b := BegunFrom(run, i - 1, pid);
      }
    }
  }

  lemma {:induction false} LongerByStatement(s: State, s': State, step: Step)
    requires Next(s, s', step) && |s'.hist| > |s.hist|
    ensures step.Statement? && RunsStatement(s, s', step.pid)
    ensures WantsWrite(s.procs[step.pid].call, Seen(s.hist, s.procs[step.pid].at))
    ensures Effect(s.procs[step.pid].call, Current(s)).Some?
    ensures s'.hist == s.hist + [Effect(s.procs[step.pid].call, Current(s)).value]
  {
  }

  lemma {:induction false} WriterCommits(s: State, s': State, pid: nat)
    requires Good(s) && RunsStatement(s, s', pid)
    requires WantsWrite(s.procs[pid].call, Seen(s.hist, s.procs[pid].at)) && Effect(s.procs[pid].call, Current(s)).Some?
    ensures Commits(s.procs[pid].call, Current(s))
    ensures AtomicResult(s.procs[pid].call, Current(s)) == Effect(s.procs[pid].call, Current(s)).value
  {
    assert ProcOk(s, pid);
    WriterIsReady(s, s', pid);
    CommitsNow(s.hist, s.procs[pid]);
  }

  lemma HistoryKept(s: State, s': State)
    requires Good(s) && Steps(s, s')
    ensures s.hist <= s'.hist
  {
    var step :| Next(s, s', step);
    StepKeepsGood(s, s', step);
  }

  /** Version k is what the call, run on its own, makes of the version before. */
  ghost predicate MadeBy(call: Call, hist: seq<Db>, k: nat) {
    0 < k < |hist| && Commits(call, hist[k - 1]) && hist[k] == AtomicResult(call, hist[k - 1])
  }

  /** A step that adds a version is the commit of a call. */
  lemma {:induction false} StepWriter(s: State, s': State) returns (pid: nat)
    requires Good(s) && Steps(s, s') && |s'.hist| > |s.hist|
    ensures pid in s.procs && RunsStatement(s, s', pid)
    ensures s.hist != [] && |s'.hist| == |s.hist| + 1 && MadeBy(s.procs[pid].call, s'.hist, |s.hist|)
  {
    var step :| Next(s, s', step);
    LongerByStatement(s, s', step);
    pid := step.pid;
    WriterCommits(s, s', pid);
    assert s'.hist[|s.hist| - 1] == Current(s);
  }

  /** Version k was committed by a call begun in the run, and is what the call, run on its own, makes of version k - 1. */
  ghost predicate WrittenBy(run: seq<State>, b: nat, m: nat, pid: nat, hist: seq<Db>, k: nat) {
    WroteVersion(run, m, pid, k) && BegunAt(run, b, m - 1, pid) && MadeBy(WriterCall(run, m, pid), hist, k)
  }

  lemma {:induction false} NewestWriter(run: seq<State>, i: nat, s: State, s': State) returns (pid: nat)
    requires 0 < i < |run| && s == run[i - 1] && s' == run[i]
    requires Good(s) && Steps(s, s') && |s'.hist| > |s.hist|
    ensures pid in s.procs && WroteVersion(run, i, pid, |s.hist|) && MadeBy(s.procs[pid].call, s'.hist, |s.hist|)
  {
    pid := StepWriter(s, s');
  }

  lemma WrittenByLonger(run: seq<State>, b: nat, m: nat, pid: nat, hist: seq<Db>, longer: seq<Db>, k: nat)
    requires WrittenBy(run, b, m, pid, hist, k) && hist <= longer
    ensures WrittenBy(run, b, m, pid, longer, k)
  {
  }

  /** In every run, each version of the database was committed by a call begun in that run, and is what the call, run on its
      own, makes of the version before: the store's methods, called in commit order. */
  lemma {:induction false} TheDatabaseIsSequential(run: seq<State>, i: nat, k: nat) returns (b: nat, m: nat, pid: nat)
    requires Run(run) && i < |run| && 0 < k < |run[i].hist|
    ensures m <= i && WrittenBy(run, b, m, pid, run[i].hist, k)
    decreases i
  {
    if i > 0 {
      RunIsGood(run, i - 1);
      HistoryKept(run[i - 1], run[i]);
      if k < |run[i - 1].hist| {
        b, m, pid := TheDatabaseIsSequential(run, i - 1, k);
        WrittenByLonger(run, b, m, pid, run[i - 1].hist, run[i].hist, k);
      } else {
        m := i;
        pid := NewestWriter(run, i, run[i - 1], run[i]);
        b := BegunFrom(run, i - 1, pid);
      }
    }
  }

  /** A call in flight only ever gets further. */
  lemma {:induction false} GetsFurther(run: seq<State>, b: nat, l: nat, i: nat, pid: nat)
    requires Run(run) && BegunAt(run, b, i, pid) && b <= l <= i
    ensures |run[l].procs[pid].at| <= |run[i].procs[pid].at|
    decreases i
  {
    if l < i {
      assert Steps(run[i - 1], run[i]) && pid in run[i - 1].procs;
      StaysInFlight(run[i - 1], run[i], pid);
      GetsFurther(run, b, l, i - 1, pid);
    }
  }

  lemma StaysInFlight(s: State, s': State, pid: nat)
    requires Steps(s, s') && pid in s.procs && pid in s'.procs
    ensures |s.procs[pid].at| <= |s'.procs[pid].at|
  {
  }

  lemma CommitSlot(run: seq<State>, m: nat, pid: nat, k: nat)
    requires WroteVersion(run, m, pid, k)
    ensures CanWrite(WriterCall(run, m, pid)) && |run[m - 1].procs[pid].at| == WriteSlot(WriterCall(run, m, pid))
    ensures pid in run[m].procs && |run[m].procs[pid].at| == WriteSlot(WriterCall(run, m, pid)) + 1
  {
    WantsOneThing(WriterCall(run, m, pid), Seen(run[m - 1].hist, run[m - 1].procs[pid].at));
  }

  /** No call commits more than one version. */
  lemma {:induction false} OneVersionEach(run: seq<State>, b: nat, pid: nat, m: nat, k: nat, m': nat, k': nat)
    requires Run(run) && WroteVersion(run, m, pid, k) && WroteVersion(run, m', pid, k')
    requires BegunAt(run, b, m - 1, pid) && BegunAt(run, b, m' - 1, pid)
    ensures m == m' && k == k'
  {
    CommitSlot(run, m, pid, k);
    CommitSlot(run, m', pid, k');
    if m < m' {
      GetsFurther(run, b, m, m' - 1, pid);
    } else if m' < m {
      GetsFurther(run, b, m', m - 1, pid);
    }
  }
}
