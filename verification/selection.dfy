/**
 * The dispatch-selection rule applied on every poll tick: which test, if any,
 * is started next and with which Windows user.
 *
 * The execution info's collaborators are parameters and nothing is assumed
 * about them:
 *   toExecute(i)   the tests `GetTestsToExecute(i)` lists for retry level i
 *                  (0 = never run), in its own order;
 *   nextUser(t)    what `GetNextUser(t)` answers (None for null).
 */
module Selection {
  import opened Wrappers
  import opened Entities

  /** A test chosen for dispatch, the user that will run it and the level it was found at. */
  datatype Pick = Pick(test: Oid, user: WindowsUser, level: nat)

  /**
   * `GetEasyTest`: the first candidate, in the order given, that belongs to
   * the batch, or None when there is none.
   */
  function GetEasyTest(candidates: seq<Oid>, batch: seq<Oid>): (r: Option<Oid>)
    ensures r.Some? ==> r.value in candidates && r.value in batch
    ensures r.None? <==> forall c :: c in candidates ==> c !in batch
  {
    if candidates == [] then None
    else if candidates[0] in batch then Some(candidates[0])
    else GetEasyTest(candidates[1..], batch)
  }

  /** The candidate at `k` is the one chosen when it is in the batch and no earlier candidate is. */
  lemma {:induction false} GetEasyTestFirst(candidates: seq<Oid>, batch: seq<Oid>, k: nat)
    requires k < |candidates| && candidates[k] in batch
    requires forall j :: 0 <= j < k ==> candidates[j] !in batch
    ensures GetEasyTest(candidates, batch) == Some(candidates[k])
  {
    if k > 0 {
      GetEasyTestFirst(candidates[1..], batch, k - 1);
    }
  }

  /**
   * `GetNeverRunEasyTest`: the first never-run candidate, provided the user
   * collaborator has a user for it.
   */
  function NeverRunEasyTest(batch: seq<Oid>, toExecute: nat -> seq<Oid>, nextUser: Oid -> Option<WindowsUser>): (r: Option<Pick>)
    ensures r.Some? ==> r.value.level == 0 && GetEasyTest(toExecute(0), batch) == Some(r.value.test)
                        && nextUser(r.value.test) == Some(r.value.user)
    ensures r.None? <==> GetEasyTest(toExecute(0), batch).None? || nextUser(GetEasyTest(toExecute(0), batch).value).None?
  {
    match GetEasyTest(toExecute(0), batch)
    case None => None
    case Some(t) =>
      match nextUser(t)
      case None => None
      case Some(u) => Some(Pick(t, u, 0))
  }

  /**
   * The retry scan of `GetFailedEasyTest` from `level` up to `retries`: the
   * first level with a candidate decides, and when that candidate has no user
   * the scan ends without a pick.
   */
  function FailedEasyTestFrom(level: nat, retries: int, batch: seq<Oid>, toExecute: nat -> seq<Oid>,
                              nextUser: Oid -> Option<WindowsUser>): (r: Option<Pick>)
    ensures r.Some? ==> level <= r.value.level <= retries
    decreases if level <= retries then retries - level + 1 else 0
  {
    if retries < level then None
    else
      match GetEasyTest(toExecute(level), batch)
      case None => FailedEasyTestFrom(level + 1, retries, batch, toExecute, nextUser)
      case Some(t) =>
        match nextUser(t)
        case None => None
        case Some(u) => Some(Pick(t, u, level))
  }

  /** `GetFailedEasyTest`: retry levels 1..`ExecutionRetries`, ascending. */
  function FailedEasyTest(retries: int, batch: seq<Oid>, toExecute: nat -> seq<Oid>,
                          nextUser: Oid -> Option<WindowsUser>): (r: Option<Pick>)
    ensures r.Some? ==> 1 <= r.value.level <= retries
    ensures r.Some? ==> r.value.test in batch && nextUser(r.value.test) == Some(r.value.user)
    ensures retries <= 0 ==> r.None?
  {
    FailedEasyTestLevel(1, retries, batch, toExecute, nextUser);
    FailedEasyTestFrom(1, retries, batch, toExecute, nextUser)
  }

  /**
   * `GetNextEasyTest`'s choice: nothing unless a Windows user is free, then a
   * never-run test if one can be started, else a failed one.
   */
  function NextEasyTest(runningCount: nat, usersCount: nat, retries: int, batch: seq<Oid>,
                        toExecute: nat -> seq<Oid>, nextUser: Oid -> Option<WindowsUser>): (r: Option<Pick>)
    ensures r.Some? ==> runningCount < usersCount
    ensures r.Some? ==> r.value.test in batch && nextUser(r.value.test) == Some(r.value.user)
    ensures runningCount < usersCount && NeverRunEasyTest(batch, toExecute, nextUser).Some? ==>
              r == NeverRunEasyTest(batch, toExecute, nextUser)
    ensures runningCount < usersCount && NeverRunEasyTest(batch, toExecute, nextUser).None? ==>
              r == FailedEasyTest(retries, batch, toExecute, nextUser)
    ensures r.Some? && r.value.level > 0 ==>
              NeverRunEasyTest(batch, toExecute, nextUser).None? && r == FailedEasyTest(retries, batch, toExecute, nextUser)
    ensures r.Some? ==> r.value.level == 0 || 1 <= r.value.level <= retries
  {
    if runningCount < usersCount then
      match NeverRunEasyTest(batch, toExecute, nextUser)
      case Some(p) => Some(p)
      case None =>
        FailedEasyTest(retries, batch, toExecute, nextUser)
    else None
  }

  /** A pick by the retry scan is a batch test the user collaborator has a user for. */
  lemma {:induction false} FailedEasyTestLevel(level: nat, retries: int, batch: seq<Oid>,
                                               toExecute: nat -> seq<Oid>, nextUser: Oid -> Option<WindowsUser>)
    ensures var r := FailedEasyTestFrom(level, retries, batch, toExecute, nextUser);
            r.Some? ==> r.value.test in batch && nextUser(r.value.test) == Some(r.value.user)
                        && GetEasyTest(toExecute(r.value.level), batch) == Some(r.value.test)
    decreases if level <= retries then retries - level + 1 else 0
  {
    if level <= retries && GetEasyTest(toExecute(level), batch).None? {
      FailedEasyTestLevel(level + 1, retries, batch, toExecute, nextUser);
    }
  }

  /**
   * A pick by the retry scan comes from the LOWEST level that has a candidate:
   * every level below it lists no batch test.
   */
  lemma {:induction false} FailedEasyTestLowest(level: nat, retries: int, batch: seq<Oid>,
                                                toExecute: nat -> seq<Oid>, nextUser: Oid -> Option<WindowsUser>)
    ensures var r := FailedEasyTestFrom(level, retries, batch, toExecute, nextUser);
            r.Some? ==> forall j :: level <= j < r.value.level ==> GetEasyTest(toExecute(j), batch).None?
    decreases if level <= retries then retries - level + 1 else 0
  {
    if level <= retries && GetEasyTest(toExecute(level), batch).None? {
      var r := FailedEasyTestFrom(level, retries, batch, toExecute, nextUser);
      assert r == FailedEasyTestFrom(level + 1, retries, batch, toExecute, nextUser);
      FailedEasyTestLowest(level + 1, retries, batch, toExecute, nextUser);
    }
  }

  /**
   * The scan stops at the first level `k` with a candidate `c`: the result is
   * `c` when it has a user and None otherwise, whatever the higher levels hold.
   */
  lemma {:induction false} FailedEasyTestStops(level: nat, k: nat, c: Oid, retries: int, batch: seq<Oid>,
                                               toExecute: nat -> seq<Oid>, nextUser: Oid -> Option<WindowsUser>)
    requires level <= k <= retries
    requires GetEasyTest(toExecute(k), batch) == Some(c)
    requires forall j :: level <= j < k ==> GetEasyTest(toExecute(j), batch).None?
    ensures FailedEasyTestFrom(level, retries, batch, toExecute, nextUser) ==
              (if nextUser(c).Some? then Some(Pick(c, nextUser(c).value, k)) else None)
    decreases k - level
  {
    if level < k {
      assert GetEasyTest(toExecute(level), batch).None?;
      assert FailedEasyTestFrom(level, retries, batch, toExecute, nextUser)
          == FailedEasyTestFrom(level + 1, retries, batch, toExecute, nextUser);
      FailedEasyTestStops(level + 1, k, c, retries, batch, toExecute, nextUser);
    }
  }

  /** When no retry level from `level` to `retries` has a candidate, the scan yields nothing. */
  lemma {:induction false} FailedEasyTestNone(level: nat, retries: int, batch: seq<Oid>,
                                              toExecute: nat -> seq<Oid>, nextUser: Oid -> Option<WindowsUser>)
    requires forall j :: level <= j <= retries ==> GetEasyTest(toExecute(j), batch).None?
    ensures FailedEasyTestFrom(level, retries, batch, toExecute, nextUser).None?
    decreases if level <= retries then retries - level + 1 else 0
  {
    if level <= retries {
      FailedEasyTestNone(level + 1, retries, batch, toExecute, nextUser);
    }
  }
}
