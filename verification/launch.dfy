/**
 * The command line a test is launched with (`GetArguments` and the choice of
 * executable and arguments in `GetProcessStartInfo`).
 */
module Launch {
  import opened Wrappers
  import opened Entities

  const DebugSwitch: string := " -d:"
  const ProcessAsUserExe: string := "ProcessAsUser.exe"

  /** `TestExecutor.v{0}.exe` with the short assembly version filled in. */
  function TestExecutorExe(versionShort: string): (r: string)
    ensures |r| == |versionShort| + 18 && r[..14] == "TestExecutor.v" && r[|r| - 4..] == ".exe"
    ensures r[14..|r| - 4] == versionShort
  {
    "TestExecutor.v" + versionShort + ".exe"
  }

  /** `GetArguments`: the script's file name, followed by the debug switch in debug mode. */
  function GetArguments(fileName: string, debugMode: bool): (r: string)
    ensures |r| >= |fileName| && r[..|fileName|] == fileName
    ensures debugMode <==> |r| > |fileName|
    ensures debugMode ==> r[|fileName|..] == DebugSwitch
  {
    if debugMode then fileName + DebugSwitch else fileName
  }

  /** C#'s unchecked `int` arithmetic: the value in range congruent to `x` modulo 2^32. */
  function WrapInt32(x: int): (r: Int32)
    ensures (r - x) % 0x1_0000_0000 == 0
    ensures -0x8000_0000 <= x < 0x8000_0000 ==> r == x
  {
    var m := x % 0x1_0000_0000;
    if m < 0x8000_0000 then m else m - 0x1_0000_0000
  }

  /**
   * `DefaultTimeout*60*1000`, evaluated left to right in 32-bit arithmetic: the
   * timeout in milliseconds, wrapped to 32 bits; it is exact for timeouts up to
   * 35791 minutes either way.
   */
  function TimeoutMillis(defaultTimeout: Int32): (r: Int32)
    ensures r == WrapInt32(defaultTimeout * 60_000)
    ensures -35791 <= defaultTimeout <= 35791 ==> r == defaultTimeout * 60_000
  {
    WrapProduct(defaultTimeout * 60, 1000);
    WrapInt32(WrapInt32(defaultTimeout * 60) * 1000)
  }

  /** Wrapping after each product is the same as wrapping once. */
  lemma WrapProduct(a: int, b: int)
    ensures WrapInt32(WrapInt32(a) * b) == WrapInt32(a * b)
  {
    var q := (WrapInt32(a) - a) / 0x1_0000_0000;
    assert WrapInt32(a) == a + q * 0x1_0000_0000;
    assert WrapInt32(a) * b == a * b + (q * b) * 0x1_0000_0000;
    WrapCongruent(WrapInt32(a) * b, a * b, q * b);
  }

  /** Numbers that differ by a multiple of 2^32 wrap to the same `int`. */
  lemma WrapCongruent(x: int, y: int, k: int)
    requires x == y + k * 0x1_0000_0000
    ensures WrapInt32(x) == WrapInt32(y)
  {
  }

  function DigitChar(d: nat): (c: char)
    requires d < 10
  {
    "0123456789"[d]
  }

  predicate IsDigits(s: string) {
    forall i :: 0 <= i < |s| ==> '0' <= s[i] <= '9'
  }

  /** Canonical decimal digits of `n`, as `string.Format` writes a non-negative `int`: no leading zero. */
  function NatToString(n: nat): (s: string)
    ensures s != [] && IsDigits(s)
    ensures s[0] == '0' ==> n == 0
  {
    if n < 10 then [DigitChar(n)] else NatToString(n / 10) + [DigitChar(n % 10)]
  }

  /** An `int` as `string.Format` writes it: a minus sign for negatives. */
  function IntToString(n: int): (s: string)
    ensures s != []
    ensures n < 0 <==> s[0] == '-'
    ensures var d := if n < 0 then s[1..] else s;
            d != [] && IsDigits(d) && (d[0] == '0' ==> n == 0)
  {
    if n < 0 then "-" + NatToString(-n) else NatToString(n)
  }

  /** The value of a string of decimal digits. */
  function ParseNat(s: string): nat
    requires IsDigits(s)
  {
    if s == [] then 0 else ParseNat(s[..|s| - 1]) * 10 + (s[|s| - 1] as int - '0' as int)
  }

  function ParseInt(s: string): int
    requires s != [] && (if s[0] == '-' then IsDigits(s[1..]) else IsDigits(s))
  {
    if s[0] == '-' then -(ParseNat(s[1..]) as int) else ParseNat(s)
  }

  /** Reading the digits back gives the number written. */
  lemma {:induction false} NatToStringRoundTrip(n: nat)
    ensures ParseNat(NatToString(n)) == n
  {
    var s := NatToString(n);
    if n >= 10 {
      NatToStringRoundTrip(n / 10);
      assert s[..|s| - 1] == NatToString(n / 10);
    }
  }

  lemma IntToStringRoundTrip(n: int)
    ensures var s := IntToString(n); if s[0] == '-' then IsDigits(s[1..]) else IsDigits(s)
    ensures ParseInt(IntToString(n)) == n
  {
    var s := IntToString(n);
    if n < 0 {
      var digits := NatToString(-n);
      assert s == "-" + digits && s[1..] == digits;
      NatToStringRoundTrip(-n);
    } else {
      assert '0' <= s[0] <= '9';
      NatToStringRoundTrip(n);
    }
  }

  datatype StartInfo = StartInfo(exe: string, arguments: string)

  /** `user.Name` on a null user in system mode throws. */
  datatype LaunchError = NullUser

  /** The `ProcessAsUser.exe` argument string of system mode. */
  function SystemArguments(testExecutor: string, user: WindowsUser, arguments: string, timeoutMillis: Int32): (r: string)
    ensures var head := "-e " + testExecutor + " -u " + user.name + " -p ";
            |head| <= |r| && r[..|head|] == head
    ensures var tail := " -a " + arguments + " -t " + IntToString(timeoutMillis);
            |tail| <= |r| && r[|r| - |tail|..] == tail
    ensures var head := "-e " + testExecutor + " -u " + user.name + " -p ";
            var tail := " -a " + arguments + " -t " + IntToString(timeoutMillis);
            |r| == |head| + |user.password| + |tail| && r[|head|..|r| - |tail|] == user.password
  {
    "-e " + testExecutor + " -u " + user.name + " -p " + user.password + " -a " + arguments
      + " -t " + IntToString(timeoutMillis)
  }

  /**
   * `GetProcessStartInfo`'s executable and arguments. The executable is
   * `ProcessAsUser.exe` in system mode and the test executor otherwise; only
   * system mode passes the debug switch, the user and the timeout along.
   */
  function GetProcessStartInfo(test: EasyTest, user: Option<WindowsUser>, isSystem: bool, debugMode: bool,
                               versionShort: string): (r: Result<StartInfo, LaunchError>)
    ensures r.Failure? <==> isSystem && user.None?
    ensures r.Success? ==> r.value.exe == (if isSystem then ProcessAsUserExe else TestExecutorExe(versionShort))
    ensures r.Success? && !isSystem ==> r.value.arguments == test.fileName
    ensures r.Success? && isSystem ==>
              r.value.arguments == SystemArguments(TestExecutorExe(versionShort), user.value,
                                                   GetArguments(test.fileName, debugMode), TimeoutMillis(test.defaultTimeout))
  {
    var testExecutor := TestExecutorExe(versionShort);
    if isSystem then
      match user
      case None => Failure(NullUser)
      case Some(u) =>
        Success(StartInfo(ProcessAsUserExe,
                          SystemArguments(testExecutor, u, GetArguments(test.fileName, debugMode), TimeoutMillis(test.defaultTimeout))))
    else Success(StartInfo(testExecutor, test.fileName))
  }

  /**
   * The system-mode argument string starts by naming the test executor and
   * ends with the timeout, which reads back as the wrapped millisecond value.
   */
  lemma SystemArgumentsParts(testExecutor: string, user: WindowsUser, arguments: string, defaultTimeout: Int32)
    ensures var a := SystemArguments(testExecutor, user, arguments, TimeoutMillis(defaultTimeout));
            var t := IntToString(TimeoutMillis(defaultTimeout));
            && a[..3 + |testExecutor|] == "-e " + testExecutor
            && |t| <= |a| && a[|a| - |t|..] == t
            && (if t[0] == '-' then IsDigits(t[1..]) else IsDigits(t))
            && ParseInt(t) == WrapInt32(defaultTimeout * 60_000)
  {
    IntToStringRoundTrip(TimeoutMillis(defaultTimeout));
  }
}
