/**
 * Timeout detection and the reaping pass (`KillTimeoutProccesses`) that opens
 * every poll tick: a running attempt older than its test's timeout is marked
 * failed and its process, if still alive, is killed.
 */
module TimeOut {
  import opened Wrappers
  import opened Entities

  const MillisPerMinute: int := 60_000

  /**
   * `IsTimeOut`: the info is running and more time has passed since its start
   * than the test's `DefaultTimeout` in minutes.
   */
  predicate IsTimeOut(info: ExecutionInfo, defaultTimeout: int, now: Millis)
    ensures IsTimeOut(info, defaultTimeout, now) ==> info.state == Running
  {
    info.state == Running && now - info.start > defaultTimeout * MillisPerMinute
  }

  /**
   * The source compares the elapsed `TotalMinutes`, a fractional number of
   * minutes, with the timeout; on integer milliseconds that is the same test.
   */
  lemma IsTimeOutInMinutes(info: ExecutionInfo, defaultTimeout: int, now: Millis)
    ensures IsTimeOut(info, defaultTimeout, now) <==>
              info.state == Running && (now - info.start) as real / MillisPerMinute as real > defaultTimeout as real
  {
  }

  /**
   * Some execution info of a test's history is timed out (`Where(IsTimeOut)`);
   * a history with no running info never is.
   */
  predicate HasTimeOut(infos: seq<ExecutionInfo>, defaultTimeout: int, now: Millis)
    ensures HasTimeOut(infos, defaultTimeout, now) ==> infos != []
    ensures (forall k :: 0 <= k < |infos| ==> infos[k].state != Running) ==> !HasTimeOut(infos, defaultTimeout, now)
  {
    exists k :: 0 <= k < |infos| && IsTimeOut(infos[k], defaultTimeout, now)
  }

  /** `process != null && !process.HasExited` guards `process.Kill()`. */
  function Kill(process: Option<Proc>): (r: Option<Proc>)
    ensures r.Some? <==> process.Some?
    ensures r.Some? ==> r.value.pid == process.value.pid && r.value.hasExited
    ensures process.Some? && process.value.hasExited ==> r == process
  {
    match process
    case None => None
    case Some(p) => if p.hasExited then process else Some(Proc(p.pid, true))
  }

  /** What the reaping pass changes: the execution infos and the process table. */
  datatype Tables = Tables(infos: map<Oid, seq<ExecutionInfo>>, processes: map<Oid, Option<Proc>>)

  /** The batch tests are known to both tables. */
  predicate Covers(t: Tables, tests: seq<EasyTest>) {
    forall i :: 0 <= i < |tests| ==> tests[i].oid in t.infos && tests[i].oid in t.processes
  }

  /** A test's history after its turn in the pass: `LogErrors` marks the last info failed. */
  function ReapedInfos(infos: seq<ExecutionInfo>, test: EasyTest, now: Millis): (r: seq<ExecutionInfo>)
    ensures |r| == |infos| && forall k :: 0 <= k < |infos| - 1 ==> r[k] == infos[k]
    ensures HasTimeOut(infos, test.defaultTimeout, now) ==> Last(r) == Last(infos).(state := Failed)
    ensures !HasTimeOut(infos, test.defaultTimeout, now) ==> r == infos
  {
    if HasTimeOut(infos, test.defaultTimeout, now) then SetLastState(infos, Failed) else infos
  }

  /** A test's process after its turn in the pass. */
  function ReapedProcess(infos: seq<ExecutionInfo>, process: Option<Proc>, test: EasyTest, now: Millis): (r: Option<Proc>)
    ensures r.Some? <==> process.Some?
    ensures r.Some? ==> r.value.pid == process.value.pid
    ensures HasTimeOut(infos, test.defaultTimeout, now) && r.Some? ==> r.value.hasExited
    ensures !HasTimeOut(infos, test.defaultTimeout, now) ==> r == process
  {
    if HasTimeOut(infos, test.defaultTimeout, now) then Kill(process) else process
  }

  /**
   * One test's turn in the reaping pass, branch by branch: nothing changes
   * without a timed-out info; otherwise the last info fails, and only a live
   * process is touched.
   */
  function ReapOne(t: Tables, test: EasyTest, now: Millis): (r: Tables)
    requires test.oid in t.infos && test.oid in t.processes
    ensures var history := t.infos[test.oid];
            var process := t.processes[test.oid];
            var live := process.Some? && !process.value.hasExited;
            && (!HasTimeOut(history, test.defaultTimeout, now) ==> r == t)
            && (HasTimeOut(history, test.defaultTimeout, now) && !live ==>
                  r == Tables(t.infos[test.oid := SetLastState(history, Failed)], t.processes))
            && (HasTimeOut(history, test.defaultTimeout, now) && live ==>
                  r == Tables(t.infos[test.oid := SetLastState(history, Failed)],
                              t.processes[test.oid := Some(Proc(process.value.pid, true))]))
  {
    Tables(t.infos[test.oid := ReapedInfos(t.infos[test.oid], test, now)],
           t.processes[test.oid := ReapedProcess(t.infos[test.oid], t.processes[test.oid], test, now)])
  }

  /** The reaping pass over the first `n` tests of the batch. */
  function ReapUpTo(t: Tables, tests: seq<EasyTest>, now: Millis, n: nat): (r: Tables)
    requires n <= |tests| && Covers(t, tests)
    ensures Covers(r, tests)
  {
    if n == 0 then t
    else ReapOne(ReapUpTo(t, tests, now, n - 1), tests[n - 1], now)
  }

  /** The whole reaping pass. */
  function Reap(t: Tables, tests: seq<EasyTest>, now: Millis): (r: Tables)
    requires Covers(t, tests)
    ensures Covers(r, tests)
    ensures HasInfos(t.infos) ==> HasInfos(r.infos)
  {
    ReapUpToKeepsInfos(t, tests, now, |tests|);
    ReapUpTo(t, tests, now, |tests|)
  }

  /** The pass changes no history's length, so none becomes empty. */
  lemma {:induction false} ReapUpToKeepsInfos(t: Tables, tests: seq<EasyTest>, now: Millis, n: nat)
    requires n <= |tests| && Covers(t, tests)
    ensures HasInfos(t.infos) ==> HasInfos(ReapUpTo(t, tests, now, n).infos)
  {
    if n > 0 {
      ReapUpToKeepsInfos(t, tests, now, n - 1);
    }
  }

  /**
   * The keys of the batch as a set: the domain the process table gets. `Oids`
   * gives the same keys as a sequence, in batch order, the form in which the
   * selection functions take the batch.
   */
  function Keys(tests: seq<EasyTest>): set<Oid> {
    set i | 0 <= i < |tests| :: tests[i].oid
  }

  /** No two tests of the batch share a key. */
  predicate DistinctOids(tests: seq<EasyTest>) {
    forall i, j :: 0 <= i < j < |tests| ==> tests[i].oid != tests[j].oid
  }

  /** The pass has not reached the test at `i` after `n <= i` turns. */
  lemma {:induction false} ReapUpToUntouched(t: Tables, tests: seq<EasyTest>, now: Millis, n: nat, i: nat)
    requires n <= i < |tests| && Covers(t, tests) && DistinctOids(tests)
    ensures ReapUpTo(t, tests, now, n).infos[tests[i].oid] == t.infos[tests[i].oid]
    ensures ReapUpTo(t, tests, now, n).processes[tests[i].oid] == t.processes[tests[i].oid]
  {
    if n > 0 {
      ReapUpToUntouched(t, tests, now, n - 1, i);
      assert tests[i].oid != tests[n - 1].oid;
    }
  }

  /** Test by test, the pass fails the last info of exactly the batch tests that have a timed-out info. */
  lemma {:induction false} ReapUpToInfosAt(t: Tables, tests: seq<EasyTest>, now: Millis, n: nat, i: nat)
    requires i < n <= |tests| && Covers(t, tests) && DistinctOids(tests)
    ensures ReapUpTo(t, tests, now, n).infos[tests[i].oid] == ReapedInfos(t.infos[tests[i].oid], tests[i], now)
  {
    var prev := ReapUpTo(t, tests, now, n - 1);
    var p := tests[n - 1];
    assert ReapUpTo(t, tests, now, n).infos == prev.infos[p.oid := ReapedInfos(prev.infos[p.oid], p, now)];
    if i == n - 1 {
      ReapUpToUntouched(t, tests, now, n - 1, i);
    } else {
      ReapUpToInfosAt(t, tests, now, n - 1, i);
      assert tests[i].oid != p.oid;
    }
  }

  /** Test by test, the pass kills the process of exactly the batch tests that have a timed-out info. */
  lemma {:induction false} ReapUpToProcessesAt(t: Tables, tests: seq<EasyTest>, now: Millis, n: nat, i: nat)
    requires i < n <= |tests| && Covers(t, tests) && DistinctOids(tests)
    ensures ReapUpTo(t, tests, now, n).processes[tests[i].oid] ==
              ReapedProcess(t.infos[tests[i].oid], t.processes[tests[i].oid], tests[i], now)
  {
    var prev := ReapUpTo(t, tests, now, n - 1);
    var p := tests[n - 1];
    assert ReapUpTo(t, tests, now, n).processes
        == prev.processes[p.oid := ReapedProcess(prev.infos[p.oid], prev.processes[p.oid], p, now)];
    if i == n - 1 {
      ReapUpToUntouched(t, tests, now, n - 1, i);
    } else {
      ReapUpToProcessesAt(t, tests, now, n - 1, i);
      assert tests[i].oid != p.oid;
    }
  }

  /** The pass leaves the entries of tests outside the batch alone. */
  lemma {:induction false} ReapUpToOthers(t: Tables, tests: seq<EasyTest>, now: Millis, n: nat, o: Oid)
    requires n <= |tests| && Covers(t, tests)
    requires o !in Keys(tests)
    ensures o in ReapUpTo(t, tests, now, n).infos <==> o in t.infos
    ensures o in ReapUpTo(t, tests, now, n).processes <==> o in t.processes
    ensures o in t.infos ==> ReapUpTo(t, tests, now, n).infos[o] == t.infos[o]
    ensures o in t.processes ==> ReapUpTo(t, tests, now, n).processes[o] == t.processes[o]
  {
    if n > 0 {
      ReapUpToOthers(t, tests, now, n - 1, o);
      assert tests[n - 1].oid in Keys(tests);
    }
  }

  /**
   * After the pass no batch test's latest attempt is timed out: each one that
   * had a timed-out attempt now ends in a failed attempt and has no live process.
   */
  lemma ReapClearsTimeOuts(t: Tables, tests: seq<EasyTest>, now: Millis)
    requires Covers(t, tests) && DistinctOids(tests) && HasInfos(t.infos)
    ensures var r := Reap(t, tests, now);
            forall i :: 0 <= i < |tests| ==>
              var o := tests[i].oid;
              && !IsTimeOut(Last(r.infos[o]), tests[i].defaultTimeout, now)
              && (HasTimeOut(t.infos[o], tests[i].defaultTimeout, now) ==>
                    Last(r.infos[o]).state == Failed && (r.processes[o].Some? ==> r.processes[o].value.hasExited))
  {
    var r := Reap(t, tests, now);
    forall i | 0 <= i < |tests|
      ensures !IsTimeOut(Last(r.infos[tests[i].oid]), tests[i].defaultTimeout, now)
      ensures HasTimeOut(t.infos[tests[i].oid], tests[i].defaultTimeout, now) ==>
                Last(r.infos[tests[i].oid]).state == Failed
                && (r.processes[tests[i].oid].Some? ==> r.processes[tests[i].oid].value.hasExited)
    {
      ReapUpToInfosAt(t, tests, now, |tests|, i);
      ReapUpToProcessesAt(t, tests, now, |tests|, i);
      var o := tests[i].oid;
      if !HasTimeOut(t.infos[o], tests[i].defaultTimeout, now) {
        assert t.infos[o][|t.infos[o]| - 1] == Last(t.infos[o]);
      }
    }
  }
}
