# TestRunner dispatch model

A Dafny model of the scheduling core of XpandTestExecutor's `TestRunner`.
The runner executes a batch of EasyTest scripts across a pool of Windows users.
Every poll tick it does two things:

- it reaps timed-out attempts (`KillTimeoutProccesses`): the last execution info of such a test is marked failed, and its process is killed if it is still alive;
- while a user is free, it picks the next test (`GetNextEasyTest`): a never-run test first, otherwise a failed test from the lowest retry level that has a candidate. The picked test's last execution info becomes `Running`.

It also models these:

- the process table reset (`InitProcessDictionary`);
- the end-of-batch test (`ExecutionFinished`);
- the command line a test is launched with (`GetArguments` and the executable and argument choice of `GetProcessStartInfo`).

The modules are:

- `Entities`: easy tests, execution infos, Windows users and processes.
- `Selection`: the pure selection rule (`GetEasyTest`, never-run and retry picks, the combined choice).
- `TimeOut`: `IsTimeOut` and the reaping pass, as functions over the two tables it changes.
- `Launch`: launch strings. This includes C#'s 32-bit `DefaultTimeout*60*1000` and the decimal rendering of that number.
- `Runner`: the class `TestRunner`. It holds the process table and the execution-info histories, and has the imperative operations. Each operation is proved against the functions above.

The persisted execution info's queries are parameters of the model, and nothing is assumed about them:

- `toExecute(i)` stands for `GetTestsToExecute(i)`.
- `nextUser(t)` stands for `GetNextUser(t)`; `None` is null.
- `runningCount` is the count of `EasyTestRunningInfos`.
- `usersCount` is the count of `WindowsUsers`.
- `retries` is `ExecutionRetries`.
- `finishedCount` is `FinishedEasyTests()`.

Wall-clock time is a parameter `now`, in integer milliseconds.

A test's history in the model is its execution infos in the current execution, its share of `EasyTestExecutionInfos`, oldest first.
Starting the execution creates one for every test, so the last one is the test's `LastEasyTestExecutionInfo`.
Infos the test got in earlier executions are not part of the history: the reaping pass never looks at them.

## Model

| member | source | states |
|---|---|---|
| Entities.Oids | XpandTestExecutor/XpandTestExecutor.Module/TestRunner.cs:238 | the batch's keys, in batch order, one per test |
| Entities.SetLastState | XpandTestExecutor/XpandTestExecutor.Module/TestRunner.cs:243 | only the state of the last execution info changes; the length and every earlier info stay as they were |
| Selection.GetEasyTest | XpandTestExecutor/XpandTestExecutor.Module/TestRunner.cs:295-297 | a result is a candidate that is in the batch; there is no result exactly when no candidate is in the batch |
| Selection.GetEasyTestFirst | XpandTestExecutor/XpandTestExecutor.Module/TestRunner.cs:295-297 | the result is the first candidate, in `GetTestsToExecute` order, that belongs to the batch |
| Selection.NeverRunEasyTest | XpandTestExecutor/XpandTestExecutor.Module/TestRunner.cs:267-277 | a pick is the level-0 candidate together with its next user; there is no pick exactly when level 0 has no candidate or that candidate has no user |
| Selection.FailedEasyTestFrom | XpandTestExecutor/XpandTestExecutor.Module/TestRunner.cs:253-264 | a pick from the scan starting at `level` lies between `level` and `ExecutionRetries` |
| Selection.FailedEasyTest | XpandTestExecutor/XpandTestExecutor.Module/TestRunner.cs:252-265 | a retry pick has a level in 1..`ExecutionRetries`, is a batch test and has that next user; with `ExecutionRetries <= 0` there is none |
| Selection.NextEasyTest | XpandTestExecutor/XpandTestExecutor.Module/TestRunner.cs:239-249 | a pick only when running infos are fewer than users; with a free user, a never-run pick always wins, and without one the result is exactly the retry scan's pick (or none); the pick is a batch test with its next user |
| Selection.FailedEasyTestLevel | XpandTestExecutor/XpandTestExecutor.Module/TestRunner.cs:254-259 | a retry pick is the `GetEasyTest` candidate of its own level and has that next user |
| Selection.FailedEasyTestLowest | XpandTestExecutor/XpandTestExecutor.Module/TestRunner.cs:253-255 | no level below the pick's has a candidate, so the pick comes from the lowest such level |
| Selection.FailedEasyTestStops | XpandTestExecutor/XpandTestExecutor.Module/TestRunner.cs:253-262 | the first level with a candidate decides: that candidate with its user, or no test when it has no user, whatever higher levels hold |
| Selection.FailedEasyTestNone | XpandTestExecutor/XpandTestExecutor.Module/TestRunner.cs:253-264 | when no level in range has a candidate, the scan yields no test |
| TimeOut.IsTimeOut | XpandTestExecutor/XpandTestExecutor.Module/TestRunner.cs:290-292 | only a `Running` info can be timed out |
| TimeOut.IsTimeOutInMinutes | XpandTestExecutor/XpandTestExecutor.Module/TestRunner.cs:290-292 | the millisecond test is the same as "running, and elapsed `TotalMinutes` exceed `DefaultTimeout`" |
| TimeOut.Kill | XpandTestExecutor/XpandTestExecutor.Module/TestRunner.cs:283-285 | a null entry stays null; a process keeps its id and has exited afterwards; an exited process is left alone |
| TimeOut.HasTimeOut | XpandTestExecutor/XpandTestExecutor.Module/TestRunner.cs:280 | a test with a timed-out info has a non-empty history; a history with no running info never has one |
| TimeOut.ReapedInfos | XpandTestExecutor/XpandTestExecutor.Module/TestRunner.cs:280-282 | a test with a timed-out info has its last info failed and nothing else changed; any other history is unchanged |
| TimeOut.ReapedProcess | XpandTestExecutor/XpandTestExecutor.Module/TestRunner.cs:283-285 | a null entry stays null and a process keeps its id; for a test with a timed-out info the process has exited afterwards; otherwise nothing changes |
| TimeOut.ReapOne | XpandTestExecutor/XpandTestExecutor.Module/TestRunner.cs:280-285 | one test's turn: nothing changes without a timed-out info; otherwise the last info fails, and the table changes only for a live process, which is marked exited |
| TimeOut.ReapUpTo | XpandTestExecutor/XpandTestExecutor.Module/TestRunner.cs:279-288 | the pass over the first `n` tests keeps every batch test in both tables |
| TimeOut.Reap | XpandTestExecutor/XpandTestExecutor.Module/TestRunner.cs:279-288 | the pass keeps every batch test in both tables, and leaves no history empty |
| TimeOut.ReapUpToKeepsInfos | XpandTestExecutor/XpandTestExecutor.Module/TestRunner.cs:280-284 | no history becomes empty during the pass |
| TimeOut.ReapUpToUntouched | XpandTestExecutor/XpandTestExecutor.Module/TestRunner.cs:281-287 | tests the pass has not reached yet are unchanged in both tables |
| TimeOut.ReapUpToInfosAt | XpandTestExecutor/XpandTestExecutor.Module/TestRunner.cs:280-282 | after its turn, a test's history is failed at its last info exactly when some info of it was timed out, and is unchanged otherwise |
| TimeOut.ReapUpToProcessesAt | XpandTestExecutor/XpandTestExecutor.Module/TestRunner.cs:283-285 | after its turn, a test's process is killed exactly when some info of it was timed out |
| TimeOut.ReapUpToOthers | XpandTestExecutor/XpandTestExecutor.Module/TestRunner.cs:279-288 | entries of tests outside the batch are neither added, removed nor changed |
| TimeOut.ReapClearsTimeOuts | XpandTestExecutor/XpandTestExecutor.Module/TestRunner.cs:279-292 | after the pass no batch test's last info is timed out; a test that had a timed-out info ends in a failed info with no live process |
| Launch.TestExecutorExe | XpandTestExecutor/XpandTestExecutor.Module/TestRunner.cs:90 | the executor's name is `TestExecutor.v`, then exactly the version, then `.exe` |
| Launch.GetArguments | XpandTestExecutor/XpandTestExecutor.Module/TestRunner.cs:106-109 | the file name, followed by ` -d:` exactly when `debugMode` is set |
| Launch.WrapInt32 | XpandTestExecutor/XpandTestExecutor.Module/TestRunner.cs:93 | unchecked `int` arithmetic: the result is congruent to the exact value modulo 2^32, and equal to it when that value is in range |
| Launch.TimeoutMillis | XpandTestExecutor/XpandTestExecutor.Module/TestRunner.cs:93 | `DefaultTimeout*60*1000` in 32 bits is the millisecond timeout wrapped once; it is exact for timeouts up to 35791 minutes either way |
| Launch.NatToString | XpandTestExecutor/XpandTestExecutor.Module/TestRunner.cs:92-93 | a number is written in canonical decimal: a non-empty string of digits with no leading zero |
| Launch.IntToString | XpandTestExecutor/XpandTestExecutor.Module/TestRunner.cs:92-93 | canonical decimal: a minus sign exactly for negative numbers, followed by non-empty digits with no leading zero |
| Launch.NatToStringRoundTrip | XpandTestExecutor/XpandTestExecutor.Module/TestRunner.cs:92-93 | reading the written digits back gives the number |
| Launch.IntToStringRoundTrip | XpandTestExecutor/XpandTestExecutor.Module/TestRunner.cs:92-93 | reading the written `int` back, sign included, gives the number |
| Launch.SystemArguments | XpandTestExecutor/XpandTestExecutor.Module/TestRunner.cs:92-93 | the system argument string starts with `-e`, the executor, `-u`, the user name and `-p`; then comes exactly the password; it ends with `-a`, the arguments, `-t` and the timeout text |
| Launch.GetProcessStartInfo | XpandTestExecutor/XpandTestExecutor.Module/TestRunner.cs:89-104 | it fails exactly in system mode with a null user; the executable is `ProcessAsUser.exe` in system mode and the test executor otherwise; non-system arguments are just the file name; system arguments carry the executor, the user, `GetArguments` and the timeout |
| Launch.SystemArgumentsParts | XpandTestExecutor/XpandTestExecutor.Module/TestRunner.cs:91-93 | the system argument string starts with `-e` and the executor, and ends with the timeout text, which reads back as the wrapped millisecond timeout |
| Runner.ExecutionFinished | XpandTestExecutor/XpandTestExecutor.Module/TestRunner.cs:24-32 | the batch is finished exactly when the finished count equals the batch size |
| Runner.EmptyProcessTable | XpandTestExecutor/XpandTestExecutor.Module/TestRunner.cs:182-187 | the table has exactly the batch's keys, each with a null process |
| Runner.AssignUser | XpandTestExecutor/XpandTestExecutor.Module/TestRunner.cs:272 | only the user of the last info changes, to the chosen one |
| Runner.CreateExecutionInfo | XpandTestExecutor/XpandTestExecutor.Module/TestRunner.cs:258 | the history grows by one new, not-started info carrying the chosen user; earlier infos are kept |
| Runner.Dispatched | XpandTestExecutor/XpandTestExecutor.Module/TestRunner.cs:241-245 | afterwards the picked test's last info is `Running` with the picked user. A never-run pick keeps its history length and start; a retry pick adds one info. No other test and no earlier info changes. |
| Runner.TestRunner.InitProcessDictionary | XpandTestExecutor/XpandTestExecutor.Module/TestRunner.cs:182-187 | it succeeds exactly when the batch keys are distinct, and then the table is one null entry per test. On the first repeated key `Add` throws, and the table holds the entries before that key, all distinct. Execution infos are untouched. |
| Runner.TestRunner.KillTimeoutProcesses | XpandTestExecutor/XpandTestExecutor.Module/TestRunner.cs:279-288 | the new tables are the reaping pass applied to the old ones |
| Runner.TestRunner.GetNeverRunEasyTest | XpandTestExecutor/XpandTestExecutor.Module/TestRunner.cs:267-277 | it returns the never-run pick and assigns its user to the last info; when there is no pick, nothing changes |
| Runner.TestRunner.GetFailedEasyTest | XpandTestExecutor/XpandTestExecutor.Module/TestRunner.cs:252-265 | it returns the retry pick and adds a new info with its user; when there is no pick, nothing changes |
| Runner.TestRunner.DispatchNext | XpandTestExecutor/XpandTestExecutor.Module/TestRunner.cs:239-247 | the choice of `NextEasyTest` is returned and dispatched; with no choice, nothing changes |
| Runner.TestRunner.GetNextEasyTest | XpandTestExecutor/XpandTestExecutor.Module/TestRunner.cs:233-250 | one tick is the reaping pass followed by the dispatch of `NextEasyTest`'s choice. The process table is exactly the reaped one. The runner stays ready: distinct keys, every test in both tables, no empty history. |

## Left out

- Process start, `WaitForExit`, `Process.Kill` as an OS call, `Thread.Sleep`, tasks, `TimeoutAfter`, the cancellation token and the `_locker` lock are left out. Killing is modelled only as the process record's exited flag. Storing the started process in the table (`_processes[easyTestKey] = process` in `RunTest`) is not modelled either. So every process entry the `TestRunner` class itself can produce is null. The kill branch of `KillTimeoutProcesses` is stated and proved for arbitrary tables through the `TimeOut` functions, but no operation of the class reaches it.
- `RunTest`, `AfterProcessExecute` and `CopyXafLogs` are not modelled; they launch and supervise processes and touch files. `GetProcessStartInfo` is modelled only for the executable and argument strings. The working directory, the redirection flags and `Path.Combine` are not modelled.
- `ExecuteCore`'s poll loop, `Execute`, `GetEasyTests`, `GetDatalayer` and `CreateExecutionInfoKey` are left out because they are I/O and XPO persistence. `ExecutionFinished` is modelled as the count comparison that ends the loop.
- `LogErrors` writing `TestsLog.xml`, tracing, `LogOffUser`/`LogOffAllUsers` and `Setup` are external effects. Of `LogErrors`, only the state change to `Failed` is modelled.
- `GetTestsToExecute`, `GetNextUser`, `FinishedEasyTests`, `EasyTestRunningInfos` and the `WindowsUsers` count are not part of this model. They are parameters with no assumed behaviour.
- Runner.CreateExecutionInfo: the persisted object's own `CreateExecutionInfo` is not part of this model. It is modelled as appending a not-started info with the given user, which then becomes `LastEasyTestExecutionInfo`. Its start is a placeholder 0, the default `DateTime`.
- Runner.TestRunner.KillTimeoutProcesses: the source walks the current execution's timed-out infos. The model walks the batch tests and treats a test as timed out when any info of its current-execution history is. Every effect targets the test's last info and its process, and repeating them is harmless, so the final state is the same. Infos from earlier executions are outside the model's histories, just as they are outside the source's walk. The message text and the 2-second settle delay are not modelled.
- Runner.TestRunner.KillTimeoutProcesses: one reading of `DateTime.Now` serves the whole pass.
- Paths are not parsed: an easy test carries its file name already reduced by `Path.GetFileName`.
- The version string is taken as given. A `{` or `}` inside it would be read by `string.Format` as part of the format; that is not modelled.
- Floating point is replaced by integer milliseconds. `TimeOut.IsTimeOutInMinutes` shows that the comparison is the same.
- An XPO unit of work's identity map and the re-reading of the tests by key are left out. Each test is identified by its `Oid`.
