/**
 * The test runner's state and the operations of its poll loop that change it:
 * resetting the process table, reaping timed-out tests and choosing the next
 * test to dispatch.
 */
module Runner {
  import opened Wrappers
  import opened Entities
  import opened Selection
  import opened TimeOut

  /** `ExecutionFinished`: the poll loop ends once as many tests have finished as the batch holds. */
  predicate ExecutionFinished(finishedCount: nat, testsCount: nat)
    ensures ExecutionFinished(finishedCount, testsCount) ==> finishedCount == testsCount
    ensures finishedCount != testsCount ==> !ExecutionFinished(finishedCount, testsCount)
  {
    finishedCount == testsCount
  }

  /** The process table `InitProcessDictionary` builds: one null entry per test. */
  function EmptyProcessTable(tests: seq<EasyTest>): (r: map<Oid, Option<Proc>>)
    ensures r.Keys == Keys(tests)
    ensures forall o :: o in r ==> r[o].None?
  {
    map o | o in Keys(tests) :: None
  }

  /** The last info of a never-run test gets the chosen user. */
  function AssignUser(infos: seq<ExecutionInfo>, user: WindowsUser): (r: seq<ExecutionInfo>)
    requires infos != []
    ensures |r| == |infos| && forall k :: 0 <= k < |infos| - 1 ==> r[k] == infos[k]
    ensures Last(r) == Last(infos).(user := Some(user))
  {
    infos[|infos| - 1 := Last(infos).(user := Some(user))]
  }

  /**
   * `CreateExecutionInfo(isSystem, executionInfo, windowsUser)` for a retry: a
   * new, not yet started info with that user becomes the test's last one. Its
   * start is the default time (0); the run sets the real one.
   */
  function CreateExecutionInfo(infos: seq<ExecutionInfo>, user: WindowsUser): (r: seq<ExecutionInfo>)
    ensures |r| == |infos| + 1 && r[..|infos|] == infos
    ensures Last(r) == ExecutionInfo(NotStarted, Some(user), 0)
  {
    infos + [ExecutionInfo(NotStarted, Some(user), 0)]
  }

  /**
   * The infos after `p` is dispatched: the picked test's last info is running
   * with the picked user; a never-run pick reuses its info, a retry adds one;
   * no other test and no earlier info changes.
   */
  function Dispatched(infos: map<Oid, seq<ExecutionInfo>>, p: Pick): (r: map<Oid, seq<ExecutionInfo>>)
    requires p.test in infos && infos[p.test] != []
    ensures r.Keys == infos.Keys
    ensures forall o :: o in infos && o != p.test ==> r[o] == infos[o]
    ensures r[p.test] != [] && Last(r[p.test]).state == Running && Last(r[p.test]).user == Some(p.user)
    ensures p.level == 0 ==> |r[p.test]| == |infos[p.test]| && Last(r[p.test]).start == Last(infos[p.test]).start
    ensures p.level > 0 ==> |r[p.test]| == |infos[p.test]| + 1
    ensures forall k :: 0 <= k < |infos[p.test]| - 1 ==> r[p.test][k] == infos[p.test][k]
    ensures p.level > 0 ==> r[p.test][|infos[p.test]| - 1] == Last(infos[p.test])
  {
    var s := infos[p.test];
    var s' := if p.level == 0 then AssignUser(s, p.user) else CreateExecutionInfo(s, p.user);
    assert p.level > 0 ==> s'[|s| - 1] == Last(s);
    infos[p.test := SetLastState(s', Running)]
  }

  /**
   * The test runner's static state: the process table `_processes` and, for
   * every test, its execution infos in the CURRENT execution (its share of
   * `EasyTestExecutionInfos`), oldest first. The execution creates one for
   * every test when it starts, so the last one is the test's
   * `LastEasyTestExecutionInfo`; infos of earlier executions are not here.
   */
  class TestRunner {
    var processes: map<Oid, Option<Proc>>
    var infos: map<Oid, seq<ExecutionInfo>>

    constructor (infos: map<Oid, seq<ExecutionInfo>>)
      ensures this.infos == infos && processes == map[]
    {
      this.infos := infos;
      processes := map[];
    }

    function State(): Tables
      reads this
    {
      Tables(infos, processes)
    }

    /**
     * What the poll loop relies on: the batch's tests have distinct keys, an
     * entry in the process table and at least one execution info.
     */
    predicate Ready(tests: seq<EasyTest>)
      reads this
    {
      HasInfos(infos) && DistinctOids(tests) && Covers(State(), tests)
    }

    /**
     * `InitProcessDictionary`: clear the table and add a null entry per test.
     * `Dictionary.Add` throws on a repeated key; then `ok` is false and the
     * table holds the entries added before it.
     */
    method InitProcessDictionary(tests: seq<EasyTest>) returns (ok: bool)
      modifies this
      ensures infos == old(infos)
      ensures ok <==> DistinctOids(tests)
      ensures ok ==> processes == EmptyProcessTable(tests)
      ensures !ok ==> exists k :: 0 <= k < |tests| && DistinctOids(tests[..k]) && tests[k].oid in Keys(tests[..k])
                                  && processes == EmptyProcessTable(tests[..k])
    {
      processes := map[];
      var i := 0;
      while i < |tests|
        invariant 0 <= i <= |tests|
        invariant infos == old(infos)
        invariant DistinctOids(tests[..i])
        invariant processes == EmptyProcessTable(tests[..i])
      {
        if tests[i].oid in processes {
          assert tests[i].oid in Keys(tests[..i]);
          var j :| 0 <= j < i && tests[..i][j].oid == tests[i].oid;
          assert tests[j].oid == tests[i].oid;
          return false;
        }
        processes := processes[tests[i].oid := None];
        assert tests[..i + 1] == tests[..i] + [tests[i]];
        assert Keys(tests[..i + 1]) == Keys(tests[..i]) + {tests[i].oid};
        i := i + 1;
      }
      assert tests[..i] == tests;
      return true;
    }

    /**
     * `KillTimeoutProccesses`: every test with a timed-out info has its last
     * info failed (`LogErrors`) and its process killed when it is still alive.
     */
    method KillTimeoutProcesses(tests: seq<EasyTest>, now: Millis)
      requires Covers(State(), tests)
      modifies this
      ensures State() == Reap(old(State()), tests, now)
    {
      var i := 0;
      while i < |tests|
        invariant 0 <= i <= |tests|
        invariant Covers(old(State()), tests)
        invariant State() == ReapUpTo(old(State()), tests, now, i)
      {
        var test := tests[i];
        assert test.oid in infos && test.oid in processes;
        ghost var next := ReapOne(State(), test, now);
        assert next == ReapUpTo(old(State()), tests, now, i + 1);
        var history := infos[test.oid];
        if HasTimeOut(history, test.defaultTimeout, now) {
          infos := infos[test.oid := SetLastState(history, Failed)];
          var process := processes[test.oid];
          if process.Some? && !process.value.hasExited {
            processes := processes[test.oid := Some(Proc(process.value.pid, true))];
          }
        }
        assert State() == next;
        i := i + 1;
      }
    }

    /**
     * `GetNeverRunEasyTest`: the first never-run batch test, if the user
     * collaborator has a user for it; that user goes into its last info.
     */
    method GetNeverRunEasyTest(batch: seq<Oid>, toExecute: nat -> seq<Oid>, nextUser: Oid -> Option<WindowsUser>)
      returns (r: Option<Oid>)
      requires HasInfos(infos) && forall o :: o in batch ==> o in infos
      modifies this
      ensures processes == old(processes)
      ensures var p := NeverRunEasyTest(batch, toExecute, nextUser);
              && (p.None? ==> r.None? && infos == old(infos))
              && (p.Some? ==> r == Some(p.value.test)
                              && infos == old(infos)[p.value.test := AssignUser(old(infos)[p.value.test], p.value.user)])
    {
      r := None;
      var neverRunTest := GetEasyTest(toExecute(0), batch);
      if neverRunTest.Some? {
        var windowsUser := nextUser(neverRunTest.value);
        if windowsUser.Some? {
          infos := infos[neverRunTest.value := AssignUser(infos[neverRunTest.value], windowsUser.value)];
          r := neverRunTest;
        }
      }
    }

    /**
     * `GetFailedEasyTest`: scan retry levels 1..`retries` upwards; the first
     * level with a batch test decides. With a user, a new execution info is
     * created for that test and it is returned; without one, the scan ends
     * with no test.
     */
    method GetFailedEasyTest(batch: seq<Oid>, toExecute: nat -> seq<Oid>, nextUser: Oid -> Option<WindowsUser>,
                             retries: int)
      returns (r: Option<Oid>)
      requires forall o :: o in batch ==> o in infos
      modifies this
      ensures processes == old(processes)
      ensures var p := FailedEasyTest(retries, batch, toExecute, nextUser);
              && (p.None? ==> r.None? && infos == old(infos))
              && (p.Some? ==> r == Some(p.value.test)
                              && infos == old(infos)[p.value.test := CreateExecutionInfo(old(infos)[p.value.test], p.value.user)])
    {
      var i := 0;
      while i < retries
        invariant 0 <= i && (0 < retries ==> i <= retries)
        invariant FailedEasyTest(retries, batch, toExecute, nextUser)
                  == FailedEasyTestFrom(i + 1, retries, batch, toExecute, nextUser)
        invariant infos == old(infos) && processes == old(processes)
        decreases retries - i
      {
        var easyTest := GetEasyTest(toExecute(i + 1), batch);
        if easyTest.Some? {
          var windowsUser := nextUser(easyTest.value);
          if windowsUser.Some? {
            infos := infos[easyTest.value := CreateExecutionInfo(infos[easyTest.value], windowsUser.value)];
            return easyTest;
          }
          return None;
        }
        i := i + 1;
      }
      return None;
    }

    /**
     * The choice half of `GetNextEasyTest`: while a Windows user is free, pick
     * a never-run test or else a failed one and mark its last info running.
     */
    method DispatchNext(batch: seq<Oid>, runningCount: nat, usersCount: nat, retries: int,
                        toExecute: nat -> seq<Oid>, nextUser: Oid -> Option<WindowsUser>)
      returns (r: Option<Oid>)
      requires HasInfos(infos) && forall o :: o in batch ==> o in infos
      modifies this
      ensures processes == old(processes)
      ensures var pick := NextEasyTest(runningCount, usersCount, retries, batch, toExecute, nextUser);
              && (pick.None? ==> r.None? && infos == old(infos))
              && (pick.Some? ==> r == Some(pick.value.test) && infos == Dispatched(old(infos), pick.value))
    {
      ghost var pick := NextEasyTest(runningCount, usersCount, retries, batch, toExecute, nextUser);
      r := None;
      if runningCount < usersCount {
        var easyTest := GetNeverRunEasyTest(batch, toExecute, nextUser);
        if easyTest.None? {
          easyTest := GetFailedEasyTest(batch, toExecute, nextUser, retries);
        }
        if easyTest.Some? {
          assert pick.Some? && easyTest.value == pick.value.test;
          infos := infos[easyTest.value := SetLastState(infos[easyTest.value], Running)];
          r := easyTest;
        }
      }
    }

    /**
     * `GetNextEasyTest`, one poll tick: reap timed-out tests, then dispatch
     * the next test if one can be started.
     */
    method GetNextEasyTest(tests: seq<EasyTest>, runningCount: nat, usersCount: nat, retries: int,
                           toExecute: nat -> seq<Oid>, nextUser: Oid -> Option<WindowsUser>, now: Millis)
      returns (r: Option<Oid>)
      requires Ready(tests)
      modifies this
      ensures Ready(tests)
      ensures processes == Reap(old(State()), tests, now).processes
      ensures var pick := NextEasyTest(runningCount, usersCount, retries, Oids(tests), toExecute, nextUser);
              pick.None? ==> r.None? && infos == Reap(old(State()), tests, now).infos
      ensures var pick := NextEasyTest(runningCount, usersCount, retries, Oids(tests), toExecute, nextUser);
              pick.Some? ==> r == Some(pick.value.test) && infos == Dispatched(Reap(old(State()), tests, now).infos, pick.value)
    {
      KillTimeoutProcesses(tests, now);
      var batch := Oids(tests);
      assert forall o :: o in batch ==> o in infos;
      r := DispatchNext(batch, runningCount, usersCount, retries, toExecute, nextUser);
    }
  }
}
