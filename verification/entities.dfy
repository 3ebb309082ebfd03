/**
 * The persistent objects the test runner reads and writes: easy tests, their
 * execution infos (one per attempt) and the Windows users that run them.
 */
module Entities {
  import opened Wrappers

  /** The key (`Oid`) of a persistent easy test. */
  type Oid = nat

  /** Points in time and elapsed times, in milliseconds. */
  type Millis = int

  /** A value of the C# `int` type. */
  type Int32 = x: int | -0x8000_0000 <= x < 0x8000_0000

  datatype EasyTestState = NotStarted | Running | Passed | Failed

  datatype WindowsUser = WindowsUser(name: string, password: string)

  /** One attempt of one test: its state, the user that runs it and when it started. */
  datatype ExecutionInfo = ExecutionInfo(state: EasyTestState, user: Option<WindowsUser>, start: Millis)

  /**
   * An easy test of the batch. `fileName` is the file-name part of the
   * script's path; `defaultTimeout` is its timeout in minutes.
   */
  datatype EasyTest = EasyTest(oid: Oid, fileName: string, defaultTimeout: Int32)

  /** An OS process started for a test, as far as the runner looks at it. */
  datatype Proc = Proc(pid: nat, hasExited: bool)

  /** The keys of a batch of tests, in batch order. */
  function Oids(tests: seq<EasyTest>): (r: seq<Oid>)
    ensures |r| == |tests|
    ensures forall i :: 0 <= i < |tests| ==> r[i] == tests[i].oid
  {
    seq(|tests|, i requires 0 <= i < |tests| => tests[i].oid)
  }

  /** Every test has at least one execution info; the last one is `LastEasyTestExecutionInfo`. */
  predicate HasInfos(infos: map<Oid, seq<ExecutionInfo>>) {
    forall t :: t in infos ==> infos[t] != []
  }

  function Last(s: seq<ExecutionInfo>): ExecutionInfo
    requires s != []
  {
    s[|s| - 1]
  }

  /** The history with the state of its last execution info replaced. */
  function SetLastState(s: seq<ExecutionInfo>, state: EasyTestState): (r: seq<ExecutionInfo>)
    requires s != []
    ensures |r| == |s| && forall k :: 0 <= k < |s| - 1 ==> r[k] == s[k]
    ensures Last(r) == Last(s).(state := state)
  {
    s[|s| - 1 := Last(s).(state := state)]
  }
}
