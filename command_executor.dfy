/** The child-process runner behind every Codex invocation: how the
    command line is prepared for the platform, and the state the promise
    keeps while the child's events arrive (the output buffers, the
    progress cursor, the settle guard and the timer). */
module CommandExecutor {
  import opened Wrappers
  import opened Text

  // ---------------------------------------------------------------------
  // Preparing the command

  /** What is handed to `spawn`: program, arguments and the `shell` flag. */
  datatype Invocation = Invocation(command: string, args: seq<string>, shell: bool)

  const WIN32 := "win32"

  predicate IsBatchFile(command: string) {
    EndsWith(command, ".cmd") || EndsWith(command, ".bat")
  }

  /** The Windows rewrite: on win32 a `.cmd`/`.bat` file is run through
      `cmd /c`; everything else is spawned as given, never through a
      shell. */
  function WrapForWindows(platform: string, command: string, args: seq<string>): (inv: Invocation)
    ensures !inv.shell
    ensures platform == WIN32 && IsBatchFile(command) ==> inv == Invocation("cmd", ["/c", command] + args, false)
    ensures !(platform == WIN32 && IsBatchFile(command)) ==> inv == Invocation(command, args, false)
  {
    if platform == WIN32 && IsBatchFile(command) then Invocation("cmd", ["/c", command] + args, false)
    else Invocation(command, args, false)
  }

  /** Whichever way the command is wrapped, the original command is still
      what runs and its arguments follow it unchanged and in order. */
  lemma WrapKeepsCommand(platform: string, command: string, args: seq<string>)
    ensures var inv := WrapForWindows(platform, command, args);
      && |args| <= |inv.args|
      && inv.args[|inv.args| - |args|..] == args
      && (inv.command == command || (|inv.args| == |args| + 2 && inv.args[..2] == ["/c", command]))
  {
    var inv := WrapForWindows(platform, command, args);
    if platform == WIN32 && IsBatchFile(command) {
      assert inv.args == ["/c", command] + args;
    }
  }

  /** `shouldUseShell`: on win32, a command ending in or merely containing
      `.cmd` or `.bat` needs a shell; on every other platform none does. */
  function ShouldUseShell(platform: string, command: string): (r: bool)
    ensures r <==> platform == WIN32 && (Contains(command, ".cmd") || Contains(command, ".bat"))
  {
    if platform == WIN32 then
      if EndsWith(command, ".cmd") || EndsWith(command, ".bat") then
        if EndsWith(command, ".cmd") then EndsWithContains(command, ".cmd"); true
        else EndsWithContains(command, ".bat"); true
      else Contains(command, ".cmd") || Contains(command, ".bat")
    else false
  }

  /** The later build spawns the command as given and lets the shell flag
      decide. */
  function ShellInvocation(platform: string, command: string, args: seq<string>): (inv: Invocation)
    ensures inv.command == command && inv.args == args
    ensures inv.shell == ShouldUseShell(platform, command)
    ensures inv.shell <==> platform == WIN32 && (Contains(command, ".cmd") || Contains(command, ".bat"))
  {
    Invocation(command, args, ShouldUseShell(platform, command))
  }

  // ---------------------------------------------------------------------
  // How the promise settles

  datatype Outcome = Resolved(value: string) | Rejected(message: string)

  const NOT_FOUND_HEAD := "Codex CLI not found."
  const NOT_FOUND_MESSAGE := NOT_FOUND_HEAD + " Please install with: npm install -g @openai/codex"
  const SPAWN_FAILED := "Failed to spawn command: "
  const EXIT_FAILED := "Command failed with exit code "
  const UNKNOWN_ERROR := "Unknown error"
  const ENOENT := "ENOENT"

  /** `if (timeout)`: an absent or zero timeout arms no timer. */
  predicate Armed(timeout: Option<int>) {
    timeout.Some? && timeout.value != 0
  }

  const TIMED_OUT := "Command timed out after "

  /** The rejection when the timer fires: the timeout in milliseconds,
      written in decimal. */
  function TimeoutOutcome(timeout: int): (o: Outcome)
    ensures o.Rejected? && StartsWith(o.message, TIMED_OUT) && EndsWith(o.message, "ms")
    ensures o.message == TIMED_OUT + IntToString(timeout) + "ms"
  {
    var m := TIMED_OUT + IntToString(timeout) + "ms";
    assert m[|m| - 2..] == "ms";
    Rejected(m)
  }

  /** The message names the timeout: different timeouts give different
      messages. */
  lemma TimeoutMessageNamesTimeout(t1: int, t2: int)
    ensures TimeoutOutcome(t1) == TimeoutOutcome(t2) <==> t1 == t2
  {
    if TimeoutOutcome(t1) == TimeoutOutcome(t2) {
      var m1, m2 := TimeoutOutcome(t1).message, TimeoutOutcome(t2).message;
      assert m1[|TIMED_OUT|..|m1| - 2] == IntToString(t1);
      assert m2[|TIMED_OUT|..|m2| - 2] == IntToString(t2);
      IntToStringInjective(t1, t2);
    }
  }

  /** The timeout rejection says `timed out`: it does not contain the word
      `timeout`. */
  lemma TimeoutMessageLacksTimeoutWord(timeout: int)
    ensures !Contains(TimeoutOutcome(timeout).message, "timeout")
  {
    var n := IntToString(timeout);
    NumberHasNoE(timeout);
    TimedOutHasNoEO();
    assert TIMED_OUT[|TIMED_OUT| - 1] == ' ';
    PairFreeConcat(TIMED_OUT, n, 'e', 'o');
    assert PairFree("ms", 'e', 'o');
    PairFreeConcat(TIMED_OUT + n, "ms", 'e', 'o');
    assert "timeout"[3] == 'e' && "timeout"[4] == 'o';
    MissingPair(TIMED_OUT + n + "ms", "timeout", 3);
  }

  lemma NumberHasNoE(n: int)
    ensures 'e' !in IntToString(n) && PairFree(IntToString(n), 'e', 'o')
  {
    var s := IntToString(n);
    if n < 0 {
      assert s == "-" + NatToString(-n);
    }
    assert forall i :: 0 <= i < |s| ==> s[i] == '-' || IsDigit(s[i]);
  }

  lemma TimedOutHasNoEO()
    ensures PairFree(TIMED_OUT, 'e', 'o')
  {
  }

  /** The rejection for a spawn error: the not-found message exactly when
      the error mentions ENOENT, otherwise the error's own message after
      a fixed prefix. */
  function ErrorOutcome(message: string): (o: Outcome)
    ensures o.Rejected?
    ensures o.message == NOT_FOUND_MESSAGE <==> Contains(message, ENOENT)
    ensures !Contains(message, ENOENT) ==> StartsWith(o.message, SPAWN_FAILED) && EndsWith(o.message, message)
  {
    if Contains(message, ENOENT) then Rejected(NOT_FOUND_MESSAGE)
    else
      var m := SPAWN_FAILED + message;
      assert m[0] == SPAWN_FAILED[0] == 'F';
      assert NOT_FOUND_MESSAGE[0] == 'C';
      assert m[|m| - |message|..] == message;
      Rejected(m)
  }

  /** `${code}`: the exit code, or `null` when the child died of a signal. */
  function CodeText(code: Option<int>): string {
    match code
    case None => "null"
    case Some(c) => IntToString(c)
  }

  /** What follows the exit code: the trimmed stderr, or `Unknown error`
      when stderr is blank. */
  function FailureDetail(stderr: string): (d: string)
    ensures d != ""
    ensures Trim(stderr) != "" ==> d == Trim(stderr)
  {
    if Trim(stderr) != "" then Trim(stderr) else UNKNOWN_ERROR
  }

  /** The outcome when the child closes: exit code 0 resolves with the
      trimmed stdout, any other code (or none) rejects with the code and
      the failure detail. */
  function CloseOutcome(code: Option<int>, stdout: string, stderr: string): (o: Outcome)
    ensures o.Resolved? <==> code == Some(0)
    ensures o.Resolved? ==> o.value == Trim(stdout)
    ensures o.Rejected? ==> o.message == EXIT_FAILED + CodeText(code) + ": " + FailureDetail(stderr)
  {
    if code == Some(0) then Resolved(Trim(stdout))
    else Rejected(EXIT_FAILED + CodeText(code) + ": " + FailureDetail(stderr))
  }

  /** A code written out has no colon in it, so the first `: ` after the
      fixed prefix ends it. */
  lemma CodeTextHasNoColon(code: Option<int>)
    ensures ':' !in CodeText(code)
  {
    match code
    case None =>
    case Some(c) =>
      var n := NatToString(if c < 0 then -c else c);
      assert forall i :: 0 <= i < |n| ==> n[i] != ':';
      if c < 0 {
        assert IntToString(c) == "-" + n;
      }
  }

  /** The rejection names the exit code: two failed closes with the same
      message had the same code and, when their stderr was not blank, the
      same trimmed stderr. */
  lemma FailureNamesCode(c1: Option<int>, c2: Option<int>, out1: string, out2: string, err1: string, err2: string)
    requires CloseOutcome(c1, out1, err1).Rejected? && CloseOutcome(c2, out2, err2).Rejected?
    requires CloseOutcome(c1, out1, err1) == CloseOutcome(c2, out2, err2)
    ensures CodeText(c1) == CodeText(c2)
    ensures FailureDetail(err1) == FailureDetail(err2)
  {
    var t1, t2 := CodeText(c1), CodeText(c2);
    var d1, d2 := FailureDetail(err1), FailureDetail(err2);
    CodeTextHasNoColon(c1);
    CodeTextHasNoColon(c2);
    SplitMessage(t1, d1, t2, d2);
  }

  /** Two failure messages built from colon-free codes agree only when
      their codes and their details do. */
  lemma SplitMessage(a: string, x: string, b: string, y: string)
    requires ':' !in a && ':' !in b
    requires EXIT_FAILED + a + ": " + x == EXIT_FAILED + b + ": " + y
    ensures a == b && x == y
  {
    var m := EXIT_FAILED + a + ": " + x;
    assert m[|EXIT_FAILED|..] == a + ": " + x;
    assert (EXIT_FAILED + b + ": " + y)[|EXIT_FAILED|..] == b + ": " + y;
    FirstColon(a, x, b, y);
  }

  /** Splitting at the first colon: a colon-free head is determined. */
  lemma FirstColon(a: string, x: string, b: string, y: string)
    requires ':' !in a && ':' !in b
    requires a + ": " + x == b + ": " + y
    ensures a == b && x == y
  {
    var s := a + ": " + x;
    ColonAfter(a, x, s);
    ColonAfter(b, y, s);
    assert a == s[..|a|] == b;
    assert x == s[|a| + 2..] == y;
  }

  /** In `a: x` with a colon-free `a`, the first colon sits right after `a`. */
  lemma ColonAfter(a: string, x: string, s: string)
    requires ':' !in a && s == a + ": " + x
    ensures |a| < |s| && s[|a|] == ':'
    ensures forall i :: 0 <= i < |a| ==> s[i] != ':'
  {
    forall i | 0 <= i < |a|
      ensures s[i] != ':'
    {
      assert s[i] == a[i];
    }
  }

  /** The code and the trimmed stderr can be read back out of the
      rejection. */
  lemma FailureDetailRecoverable(code: Option<int>, stdout: string, stderr: string)
    requires code != Some(0)
    ensures var m := CloseOutcome(code, stdout, stderr).message;
      && StartsWith(m, EXIT_FAILED + CodeText(code) + ": ")
      && m[|EXIT_FAILED + CodeText(code) + ": "|..] == FailureDetail(stderr)
  {
  }

  // ---------------------------------------------------------------------
  // The runner's state

  /** One `executeCommand` call after the child was spawned. The event
      handlers registered on the child and on the host process are its
      methods; `reports` records what the progress callback received and
      `signalsSent` how many SIGTERMs went to the child. */
  class CommandRun {
    var stdout: string
    var stderr: string
    var lastReportedLength: nat
    var isResolved: bool
    var outcome: Option<Outcome>
    var timerArmed: bool
    var reports: seq<string>
    var signalsSent: nat
    const hasProgress: bool
    const timeout: Option<int>

    /** The reports so far are exactly the output read so far, up to the
        cursor; with a callback the cursor is always at the end; the
        outcome is set exactly once the guard is; a live timer means the
        promise is unsettled. */
    ghost predicate Valid()
      reads this
    {
      && lastReportedLength <= |stdout|
      && Concat(reports) == stdout[..lastReportedLength]
      && (hasProgress ==> lastReportedLength == |stdout|)
      && (!hasProgress ==> reports == [] && lastReportedLength == 0)
      && (isResolved <==> outcome.Some?)
      && (timerArmed ==> !isResolved && Armed(timeout))
    }

    /** The state right after `spawn`: empty buffers, the cursor at 0,
        unsettled, and a timer exactly when the timeout is set and
        non-zero. */
    constructor(hasProgress: bool, timeout: Option<int>)
      ensures Valid()
      ensures this.hasProgress == hasProgress && this.timeout == timeout
      ensures stdout == "" && stderr == "" && lastReportedLength == 0
      ensures !isResolved && outcome == None && reports == [] && signalsSent == 0
      ensures timerArmed == Armed(timeout)
    {
      this.hasProgress := hasProgress;
      this.timeout := timeout;
      stdout := "";
      stderr := "";
      lastReportedLength := 0;
      isResolved := false;
      outcome := None;
      timerArmed := Armed(timeout);
      reports := [];
      signalsSent := 0;
    }

    /** A chunk on stdout. It is appended even after settling; with a
        callback and new content, the callback receives exactly the text
        after the cursor and the cursor moves to the end. */
    method OnStdout(data: string)
      requires Valid()
      modifies this
      ensures Valid()
      ensures stdout == old(stdout) + data
      ensures reports == old(reports) + (if hasProgress && |stdout| > old(lastReportedLength)
                                         then [stdout[old(lastReportedLength)..]] else [])
      ensures hasProgress ==> Concat(reports) == stdout
      ensures stderr == old(stderr) && isResolved == old(isResolved) && outcome == old(outcome)
      ensures timerArmed == old(timerArmed) && signalsSent == old(signalsSent)
    {
      stdout := stdout + data;
      if hasProgress && |stdout| > lastReportedLength {
        var newContent := stdout[lastReportedLength..];
        ConcatSnoc(reports, newContent);
        assert stdout == stdout[..lastReportedLength] + newContent;
        lastReportedLength := |stdout|;
        reports := reports + [newContent];
      } else {
        assert stdout[..lastReportedLength] == old(stdout)[..lastReportedLength];
      }
    }

    /** A chunk on stderr: appended, nothing else changes. */
    method OnStderr(data: string)
      requires Valid()
      modifies this
      ensures Valid()
      ensures stderr == old(stderr) + data
      ensures stdout == old(stdout) && lastReportedLength == old(lastReportedLength) && reports == old(reports)
      ensures isResolved == old(isResolved) && outcome == old(outcome)
      ensures timerArmed == old(timerArmed) && signalsSent == old(signalsSent)
    {
      stderr := stderr + data;
    }

    /** The timer fires (it can only while armed): the child gets one
        SIGTERM and the promise rejects with the timeout message. */
    method OnTimeout()
      requires Valid() && timerArmed
      modifies this
      ensures Valid()
      ensures isResolved && outcome == Some(TimeoutOutcome(timeout.value))
      ensures signalsSent == old(signalsSent) + 1 && !timerArmed
      ensures stdout == old(stdout) && stderr == old(stderr) && reports == old(reports)
      ensures lastReportedLength == old(lastReportedLength)
    {
      timerArmed := false;
      if !isResolved {
        isResolved := true;
        signalsSent := signalsSent + 1;
        outcome := Some(TimeoutOutcome(timeout.value));
      }
    }

    /** A spawn error: the first settling event clears the timer and
        rejects; once settled it changes nothing. */
    method OnError(message: string)
      requires Valid()
      modifies this
      ensures Valid()
      ensures old(isResolved) ==> outcome == old(outcome) && timerArmed == old(timerArmed)
      ensures !old(isResolved) ==> outcome == Some(ErrorOutcome(message)) && !timerArmed
      ensures isResolved
      ensures stdout == old(stdout) && stderr == old(stderr) && reports == old(reports)
      ensures lastReportedLength == old(lastReportedLength) && signalsSent == old(signalsSent)
    {
      if !isResolved {
        isResolved := true;
        timerArmed := false;
        outcome := Some(ErrorOutcome(message));
      }
    }

    /** The child closes with `code` (None for `null`): the first settling
        event clears the timer and settles from the buffers; once settled
        it changes nothing. */
    method OnClose(code: Option<int>)
      requires Valid()
      modifies this
      ensures Valid()
      ensures old(isResolved) ==> outcome == old(outcome) && timerArmed == old(timerArmed)
      ensures !old(isResolved) ==> outcome == Some(CloseOutcome(code, stdout, stderr)) && !timerArmed
      ensures isResolved
      ensures stdout == old(stdout) && stderr == old(stderr) && reports == old(reports)
      ensures lastReportedLength == old(lastReportedLength) && signalsSent == old(signalsSent)
    {
      if !isResolved {
        isResolved := true;
        timerArmed := false;
        outcome := Some(CloseOutcome(code, stdout, stderr));
      }
    }

    /** The host receives SIGINT or SIGTERM: the child gets a SIGTERM only
        while the promise is unsettled. */
    method OnHostSignal()
      requires Valid()
      modifies this
      ensures Valid()
      ensures signalsSent == old(signalsSent) + (if old(isResolved) then 0 else 1)
      ensures stdout == old(stdout) && stderr == old(stderr) && reports == old(reports)
      ensures lastReportedLength == old(lastReportedLength)
      ensures isResolved == old(isResolved) && outcome == old(outcome) && timerArmed == old(timerArmed)
    {
      if !isResolved {
        signalsSent := signalsSent + 1;
      }
    }
  }
}
