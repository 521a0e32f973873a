/** Vocabulary shared by both generations of the clipboard library: how a
    process run turns out, the closed error taxonomy, the environment the
    library probes, and the helpers that classify a process outcome. */
module Runtime {

  datatype Option<+T> = None | Some(value: T)

  datatype Result<+T, +E> = Ok(value: T) | Err(error: E)

  /** A command handed to the process runner: an argument vector (the
      current library, `shell=False`) or a shell line (the older library). */
  datatype Command = Argv(args: seq<string>) | Shell(line: string)

  /** What one bounded run of a process produced, as far as the library
      looks at it: it either hit its timeout or exited with a code and an
      already decoded standard output. */
  datatype Outcome = Timeout | Exit(code: int, stdout: string)

  /** Why an engine invocation failed. */
  datatype Failure =
    | NonZeroExit(code: int, output: string)  // run_command; the output is the process's stdout
    | PipeNonZeroExit(code: int)              // run_command_with_paste
    | CommandFailed(command: Command)         // check_run_command re-wraps any library error

  /** The library's exceptions, as one closed sum. */
  datatype Error =
    | UnsupportedError(message: string)
    | NoEnginesFoundError(message: string)
    | EngineError(failure: Failure)
    | EngineTimeoutExpired
    | NoInitializationError
    | TextNotSpecified
    | UnknownError
    | BackendError(message: string)  // whatever the Windows native backend raises

  /** The errors engine detection may end in. */
  predicate IsDetectionError(e: Error)
  {
    e.UnsupportedError? || e.NoEnginesFoundError? || e.EngineError? || e.EngineTimeoutExpired?
  }

  /** What detection can observe: the raw `XDG_SESSION_TYPE` value (None
      when the variable is missing), the binaries found on the search path,
      and the outcome of running a command with a given timeout. */
  datatype Probe = Probe(sessionType: Option<string>, installed: set<string>, run: (Command, nat) -> Outcome)

  /** The calls the Windows native backend offers. */
  datatype NativeOp = NativePaste | NativeCopy(text: string)

  /** What a clipboard call can observe: process runs with a timeout,
      piping text into a process (only its exit code is looked at), and
      the Windows native backend. */
  datatype Io = Io(
    run: (Command, nat) -> Outcome,
    pipe: (Command, string) -> int,
    native: NativeOp -> Result<Option<string>, Error>)

  /** One concrete engine invocation, as the dispatch tables choose it. */
  datatype Invocation =
    | Capture(command: Command, timeout: nat)             // run_command
    | CaptureIgnoringTimeout(command: Command, timeout: nat)  // run_command, a timeout counts as success
    | Feed(command: Command, input: string)                // run_command_with_paste
    | Native(op: NativeOp)                                 // the Windows native backend

  /** The timeout `run_command` uses unless told otherwise. */
  const DefaultTimeout: nat := 5

  // Detection messages, identical in both generations of the library.
  const X11Missing := "Clipboard engines not found on your system. For Linux X11, you need to install \"xclip\" or \"xsel\" via your system package manager."
  const WaylandMissing := "Clipboard engines not found on your system. For Linux Wayland, you need to install \"wl-clipboard\" via your system package manager."
  const TtyUnsupported := "Clipboard in TTY is unsupported."
  const UnknownBackendPrefix := "The graphical backend (X11, Wayland) was not found on your Linux OS. Check XDG_SESSION_TYPE variable in your ENV. Also note that TTY is unsupported.\n\nXDG_SESSION_TYPE content: "
  const TermuxTimedOut := "No usable clipboard engines found on your system. \"termux-clipboard-get\" finished with timeout, so that means Termux:API plug-in is not installed. Please install it from F-Droid and try again."
  const TermuxMissing := "Clipboard engines not found on your system. For Android+Termux, you need to run \"pkg install termux-api\" and install \"Termux:API\" plug-in from F-Droid."
  const UnsupportedOsPrefix := "Clipboard engines not found on your system. Seems like \""
  const UnsupportedOsSuffix := "\" is unsupported. Please make issue at https://github.com/NikitaBeloglazov/clipman/issues/new"

  /** Placeholder for a missing `XDG_SESSION_TYPE`. */
  const NotSet := "< NOT SET >"

  /** The session type detection branches on: the variable's raw value,
      or the placeholder when it is missing. */
  function GraphicalBackend(p: Probe): (backend: string)
    ensures p.sessionType.Some? ==> backend == p.sessionType.value
    ensures p.sessionType.None? ==> backend == NotSet
  {
    match p.sessionType
    case Some(v) => v
    case None => NotSet
  }

  function UnsupportedOsMessage(osName: string): string
  {
    UnsupportedOsPrefix + osName + UnsupportedOsSuffix
  }

  predicate OccursAt(s: string, sub: string, k: int)
  {
    0 <= k && k + |sub| <= |s| && s[k..k + |sub|] == sub
  }

  predicate Contains(s: string, sub: string)
  {
    exists k :: 0 <= k <= |s| - |sub| && OccursAt(s, sub, k)
  }

  lemma {:induction false} ContainsAfterPrefix(pre: string, sub: string, post: string)
    ensures Contains(pre + sub + post, sub)
  {
    assert (pre + sub + post)[|pre|..|pre| + |sub|] == sub;
    assert OccursAt(pre + sub + post, sub, |pre|);
  }

  lemma {:induction false} ContainsAtEnd(pre: string, sub: string)
    ensures Contains(pre + sub, sub)
  {
    assert (pre + sub)[|pre|..|pre| + |sub|] == sub;
    assert OccursAt(pre + sub, sub, |pre|);
  }

  predicate HasSuffix(s: string, suffix: string)
  {
    |suffix| <= |s| && s[|s| - |suffix|..] == suffix
  }

  /** Python's `str.removesuffix`: drops `suffix` once when `s` ends with it. */
  function RemoveSuffix(s: string, suffix: string): (r: string)
    ensures HasSuffix(s, suffix) ==> r + suffix == s
    ensures !HasSuffix(s, suffix) ==> r == s
  {
    if HasSuffix(s, suffix) then s[..|s| - |suffix|] else s
  }

  /** Detects the OS name: the platform's own name, except that a "Linux"
      platform exposing the Android API level is reported as "Android". */
  function DetectOS(platform: string, hasAndroidApiLevel: bool): (r: string)
    ensures r == platform || r == "Android"
    ensures r != platform <==> platform == "Linux" && hasAndroidApiLevel
    ensures platform == "Linux" && hasAndroidApiLevel ==> r == "Android"
  {
    if platform == "Linux" && hasAndroidApiLevel then "Android" else platform
  }

  /** `run_command`: a timeout raises EngineTimeoutExpired, a non-zero exit
      raises EngineError, and a clean exit yields stdout with one trailing
      newline removed. */
  function RunCommand(o: Outcome): (r: Result<string, Error>)
    ensures o.Timeout? <==> r == Err(EngineTimeoutExpired)
    ensures r.Ok? <==> o.Exit? && o.code == 0
    ensures o.Exit? && o.code != 0 ==> r == Err(EngineError(NonZeroExit(o.code, o.stdout)))
    ensures r.Ok? && HasSuffix(o.stdout, "\n") ==> r.value + "\n" == o.stdout
    ensures r.Ok? && !HasSuffix(o.stdout, "\n") ==> r.value == o.stdout
  {
    match o
    case Timeout => Err(EngineTimeoutExpired)
    case Exit(code, stdout) =>
      if code != 0 then Err(EngineError(NonZeroExit(code, stdout)))
      else Ok(RemoveSuffix(stdout, "\n"))
  }

  /** A tool that prints a text followed by its line terminator is read
      back as exactly that text. */
  lemma {:induction false} RunCommandStripsTerminator(text: string)
    ensures RunCommand(Exit(0, text + "\n")) == Ok(text)
  {
    assert HasSuffix(text + "\n", "\n");
    assert (text + "\n")[..|text|] == text;
  }

  /** Only one terminator is removed: a blank last line survives. */
  lemma {:induction false} RunCommandStripsOnlyOne(text: string)
    ensures RunCommand(Exit(0, text + "\n\n")) == Ok(text + "\n")
  {
    assert text + "\n\n" == (text + "\n") + "\n";
    RunCommandStripsTerminator(text + "\n");
  }

  /** `run_command_with_paste`: only the exit code of the writer counts;
      on success the call returns Python's None. */
  function RunCommandWithPaste(code: int): (r: Result<Option<string>, Error>)
    ensures r.Ok? <==> code == 0
    ensures r.Ok? ==> r.value == None
    ensures r.Err? ==> r.error == EngineError(PipeNonZeroExit(code))
  {
    if code != 0 then Err(EngineError(PipeNonZeroExit(code))) else Ok(None)
  }

  /** `check_run_command`: a liveness run of `command`. Success yields the
      engine tag; a timeout stays EngineTimeoutExpired; every other library
      error becomes EngineError naming the command. */
  function CheckRunCommand(command: Command, o: Outcome, engine: string): (r: Result<string, Error>)
    ensures r == Ok(engine) <==> o.Exit? && o.code == 0
    ensures r.Err? <==> !(o.Exit? && o.code == 0)
    ensures o.Timeout? ==> r == Err(EngineTimeoutExpired)
    ensures o.Exit? && o.code != 0 ==> r == Err(EngineError(CommandFailed(command)))
  {
    match RunCommand(o)
    case Ok(_) => Ok(engine)
    case Err(EngineTimeoutExpired) => Err(EngineTimeoutExpired)
    case Err(_) => Err(EngineError(CommandFailed(command)))
  }

  /** Carries out one invocation against the environment. */
  function Execute(inv: Invocation, io: Io): (r: Result<Option<string>, Error>)
    ensures inv.Capture? ==>
      var o := io.run(inv.command, inv.timeout);
      (o.Timeout? ==> r == Err(EngineTimeoutExpired))
      && (o.Exit? && o.code != 0 ==> r == Err(EngineError(NonZeroExit(o.code, o.stdout))))
      && (o.Exit? && o.code == 0 ==> r == Ok(Some(RemoveSuffix(o.stdout, "\n"))))
    ensures inv.CaptureIgnoringTimeout? ==>
      var o := io.run(inv.command, inv.timeout);
      (o.Timeout? ==> r == Ok(None))
      && (o.Exit? && o.code != 0 ==> r == Err(EngineError(NonZeroExit(o.code, o.stdout))))
      && (o.Exit? && o.code == 0 ==> r == Ok(Some(RemoveSuffix(o.stdout, "\n"))))
    ensures inv.Feed? ==>
      var code := io.pipe(inv.command, inv.input);
      (code == 0 ==> r == Ok(None)) && (code != 0 ==> r == Err(EngineError(PipeNonZeroExit(code))))
    ensures inv.Native? ==> r == io.native(inv.op)
  {
    match inv
    case Capture(command, timeout) =>
      (match RunCommand(io.run(command, timeout))
       case Ok(s) => Ok(Some(s))
       case Err(e) => Err(e))
    case CaptureIgnoringTimeout(command, timeout) =>
      (match RunCommand(io.run(command, timeout))
       case Ok(s) => Ok(Some(s))
       case Err(EngineTimeoutExpired) => Ok(None)
       case Err(e) => Err(e))
    case Feed(command, input) => RunCommandWithPaste(io.pipe(command, input))
    case Native(op) => io.native(op)
  }
}
