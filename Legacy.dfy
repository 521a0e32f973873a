/** The older generation of the library: engine detection runs once when
    the module is imported, commands are shell lines, and the only
    operation is `paste`. */
module LegacyClipman {
  import opened Runtime
  import Clipman

  // Engine tags `detect_copy_engine` returns and `paste` dispatches on.
  const Xclip := "xclip"
  const Xsel := "xsel"
  const WlPaste := "wl-paste"
  const TermuxGet := "termux-clipboard-get"
  const WindowsNative := "windows_native_backend"

  const XclipRead := Shell("xclip -selection c -o")
  const XselRead := Shell("xsel")
  const WlPasteRead := Shell("wl-paste")
  const TermuxRead := Shell("termux-clipboard-get")

  predicate IsEngineTag(tag: string)
  {
    tag == Xclip || tag == Xsel || tag == WlPaste || tag == TermuxGet || tag == WindowsNative
  }

  /** `detect_copy_engine`. */
  function DetectCopyEngine(osName: string, p: Probe): (r: Result<string, Error>)
    ensures r.Ok? ==> IsEngineTag(r.value)
    ensures r.Err? ==> IsDetectionError(r.error)
    ensures r == Ok(WindowsNative) <==> osName == "Windows"
  {
    if osName == "Linux" then
      var backend := GraphicalBackend(p);
      if backend == "x11" then
        if "xclip" in p.installed then CheckRunCommand(XclipRead, p.run(XclipRead, DefaultTimeout), Xclip)
        else if "xsel" in p.installed then CheckRunCommand(XselRead, p.run(XselRead, DefaultTimeout), Xsel)
        else Err(NoEnginesFoundError(X11Missing))
      else if backend == "wayland" then
        if "wl-paste" in p.installed then CheckRunCommand(WlPasteRead, p.run(WlPasteRead, DefaultTimeout), WlPaste)
        else Err(NoEnginesFoundError(WaylandMissing))
      else if backend == "tty" then
        Err(UnsupportedError(TtyUnsupported))
      else
        Err(NoEnginesFoundError(UnknownBackendPrefix + backend))
    else if osName == "Android" then
      if "termux-clipboard-get" in p.installed then
        match CheckRunCommand(TermuxRead, p.run(TermuxRead, DefaultTimeout), TermuxGet)
        case Err(EngineTimeoutExpired) => Err(NoEnginesFoundError(TermuxTimedOut))
        case other => other
      else
        Err(NoEnginesFoundError(TermuxMissing))
    else if osName == "Windows" then
      Ok(WindowsNative)
    else
      Err(UnsupportedError(UnsupportedOsMessage(osName)))
  }

  /** The dispatch of `paste`: one read invocation per engine tag, and
      UnknownError for any other tag. */
  function PastePlan(engine: string): (r: Result<Invocation, Error>)
    ensures r == Err(UnknownError) <==> !IsEngineTag(engine)
    ensures r.Ok? ==> r.value.Capture? || r.value == Native(NativePaste)
    ensures r.Ok? && r.value.Capture? ==> r.value.timeout == DefaultTimeout && r.value.command.Shell?
  {
    if engine == Xclip then Ok(Capture(XclipRead, DefaultTimeout))
    else if engine == Xsel then Ok(Capture(XselRead, DefaultTimeout))
    else if engine == WlPaste then Ok(Capture(WlPasteRead, DefaultTimeout))
    else if engine == TermuxGet then Ok(Capture(TermuxRead, DefaultTimeout))
    else if engine == WindowsNative then Ok(Native(NativePaste))
    else Err(UnknownError)
  }

  /** `paste` for a given engine tag: UnknownError for a tag outside the
      five, the native backend's paste for the Windows tag, and otherwise
      the shell line's run classified by `run_command`. */
  function PasteResult(engine: string, io: Io): (r: Result<Option<string>, Error>)
    ensures !IsEngineTag(engine) ==> r == Err(UnknownError)
    ensures engine == WindowsNative ==> r == io.native(NativePaste)
    ensures IsEngineTag(engine) && engine != WindowsNative ==>
      var o := io.run(PastePlan(engine).value.command, DefaultTimeout);
      (o.Timeout? ==> r == Err(EngineTimeoutExpired))
      && (o.Exit? && o.code != 0 ==> r == Err(EngineError(NonZeroExit(o.code, o.stdout))))
      && (o.Exit? && o.code == 0 ==> r == Ok(Some(RemoveSuffix(o.stdout, "\n"))))
  {
    match PastePlan(engine)
    case Err(e) => Err(e)
    case Ok(inv) => Execute(inv, io)
  }

  /** The module's globals after a successful import. */
  class Module {
    var osName: string
    var engine: string
    /** Whether `dataclass.windows_native_backend` holds a backend handle. */
    var nativeBackend: bool

    /** The Windows engine is only ever recorded next to a backend handle. */
    ghost predicate Valid()
      reads this
    {
      engine == WindowsNative ==> nativeBackend
    }

    constructor (osName: string, engine: string, nativeBackend: bool)
      requires engine == WindowsNative ==> nativeBackend
      ensures Valid()
      ensures this.osName == osName && this.engine == engine && this.nativeBackend == nativeBackend
    {
      this.osName := osName;
      this.engine := engine;
      this.nativeBackend := nativeBackend;
    }

    /** `paste`: reads the clipboard with the engine recorded at import.
        A tag outside the five raises UnknownError; the Windows tag asks the
        native backend; every other tag runs its shell line with timeout 5
        and succeeds exactly when it exits 0, minus one trailing newline. */
    method Paste(io: Io) returns (r: Result<Option<string>, Error>)
      requires Valid()
      ensures !IsEngineTag(engine) ==> r == Err(UnknownError)
      ensures engine == WindowsNative ==> r == io.native(NativePaste)
      ensures IsEngineTag(engine) && engine != WindowsNative ==>
        var o := io.run(PastePlan(engine).value.command, DefaultTimeout);
        (o.Timeout? ==> r == Err(EngineTimeoutExpired))
        && (o.Exit? && o.code != 0 ==> r == Err(EngineError(NonZeroExit(o.code, o.stdout))))
        && (o.Exit? && o.code == 0 ==> r == Ok(Some(RemoveSuffix(o.stdout, "\n"))))
    {
      r := PasteResult(engine, io);
    }
  }

  /** Importing the module: `os_name` is detected first, then `engine`.
      When detection raises, the import fails and no module exists whose
      `paste` could be called. */
  method Import(platform: string, hasAndroidApiLevel: bool, p: Probe) returns (r: Result<Module, Error>)
    ensures DetectCopyEngine(DetectOS(platform, hasAndroidApiLevel), p).Err? ==>
      r == Err(DetectCopyEngine(DetectOS(platform, hasAndroidApiLevel), p).error)
    ensures DetectCopyEngine(DetectOS(platform, hasAndroidApiLevel), p).Ok? ==>
      r.Ok? && fresh(r.value) && r.value.Valid() && IsEngineTag(r.value.engine)
      && r.value.osName == DetectOS(platform, hasAndroidApiLevel)
      && r.value.engine == DetectCopyEngine(DetectOS(platform, hasAndroidApiLevel), p).value
      && r.value.nativeBackend == (DetectOS(platform, hasAndroidApiLevel) == "Windows")
  {
    var osName := DetectOS(platform, hasAndroidApiLevel);
    var detected := DetectCopyEngine(osName, p);
    if detected.Err? {
      return Err(detected.error);
    }
    var m := new Module(osName, detected.value, osName == "Windows");
    r := Ok(m);
  }

  /** Importing the module and then pasting: a detection error fails the
      import and nothing is pasted; otherwise the paste goes to the detected
      engine, which is always one of the five known tags. */
  method ImportThenPaste(platform: string, hasAndroidApiLevel: bool, p: Probe, io: Io)
    returns (r: Result<Option<string>, Error>)
    ensures DetectCopyEngine(DetectOS(platform, hasAndroidApiLevel), p).Err? ==>
      r == Err(DetectCopyEngine(DetectOS(platform, hasAndroidApiLevel), p).error)
    ensures DetectCopyEngine(DetectOS(platform, hasAndroidApiLevel), p).Ok? ==>
      r == PasteResult(DetectCopyEngine(DetectOS(platform, hasAndroidApiLevel), p).value, io)
  {
    var imported := Import(platform, hasAndroidApiLevel, p);
    match imported
    case Err(e) =>
      r := Err(e);
    case Ok(m) =>
      r := m.Paste(io);
  }

  // ---- Properties ----

  /** Each detected tag is pasted with the very command its liveness run
      exercised successfully. */
  lemma DetectedEnginePastesProbedCommand(osName: string, p: Probe)
    requires DetectCopyEngine(osName, p).Ok?
    requires DetectCopyEngine(osName, p).value != WindowsNative
    ensures var plan := PastePlan(DetectCopyEngine(osName, p).value);
      plan.Ok? && plan.value.Capture?
      && p.run(plan.value.command, DefaultTimeout).Exit? && p.run(plan.value.command, DefaultTimeout).code == 0
  {
  }

  /** With X11 xclip is preferred over xsel, and with neither installed
      detection raises NoEnginesFoundError. */
  lemma X11PrefersXclip(p: Probe)
    requires GraphicalBackend(p) == "x11"
    ensures Xclip in p.installed ==> DetectCopyEngine("Linux", p) == CheckRunCommand(XclipRead, p.run(XclipRead, DefaultTimeout), Xclip)
    ensures DetectCopyEngine("Linux", p) == Ok(Xsel) ==> Xclip !in p.installed
    ensures Xclip !in p.installed && Xsel !in p.installed ==> DetectCopyEngine("Linux", p) == Err(NoEnginesFoundError(X11Missing))
  {
  }

  /** A missing `XDG_SESSION_TYPE` ends in NoEnginesFoundError echoing the
      placeholder; a TTY session is unsupported. */
  lemma MissingSessionTypeIsEchoed(p: Probe)
    ensures p.sessionType.None? ==>
      DetectCopyEngine("Linux", p) == Err(NoEnginesFoundError(UnknownBackendPrefix + NotSet))
      && Contains(DetectCopyEngine("Linux", p).error.message, NotSet)
    ensures p.sessionType == Some("tty") ==> DetectCopyEngine("Linux", p) == Err(UnsupportedError(TtyUnsupported))
  {
    if p.sessionType.None? {
      ContainsAtEnd(UnknownBackendPrefix, NotSet);
    }
  }

  /** On Android an absent binary and a timed-out liveness run both raise
      NoEnginesFoundError; a non-zero exit stays an EngineError naming the
      command. */
  lemma AndroidNeedsTermuxApi(p: Probe)
    ensures "termux-clipboard-get" !in p.installed ==> DetectCopyEngine("Android", p) == Err(NoEnginesFoundError(TermuxMissing))
    ensures "termux-clipboard-get" in p.installed && p.run(TermuxRead, DefaultTimeout).Timeout? ==>
      DetectCopyEngine("Android", p) == Err(NoEnginesFoundError(TermuxTimedOut))
    ensures ("termux-clipboard-get" in p.installed
             && p.run(TermuxRead, DefaultTimeout).Exit? && p.run(TermuxRead, DefaultTimeout).code != 0) ==>
      DetectCopyEngine("Android", p) == Err(EngineError(CommandFailed(TermuxRead)))
  {
  }

  /** Any OS other than Linux, Android and Windows is unsupported. */
  lemma OtherSystemsUnsupported(osName: string, p: Probe)
    requires osName != "Linux" && osName != "Android" && osName != "Windows"
    ensures DetectCopyEngine(osName, p) == Err(UnsupportedError(UnsupportedOsMessage(osName)))
  {
  }

  // ---- Agreement with the current library ----

  /** The tag the current library uses for the engine this one calls `tag`. */
  function CurrentTag(tag: string): string
  {
    if tag == WlPaste then Clipman.WlClipboard
    else if tag == TermuxGet then Clipman.TermuxClipboard
    else tag
  }

  /** The shell line this library runs where the current one runs `c`. */
  function ShellFor(c: Command): Command
  {
    if c == Clipman.XclipRead then XclipRead
    else if c == Clipman.XselRead then XselRead
    else if c == Clipman.WlPaste then WlPasteRead
    else if c == Clipman.TermuxGet then TermuxRead
    else c
  }

  /** Both generations take the same decisions: when every liveness
      command turns out the same in its shell form as in its argument-vector
      form, they pick the same engine (up to tag names) and raise the same
      errors (up to the form of the failing command). */
  lemma {:induction false} GenerationsAgree(osName: string, p: Probe)
    requires p.run(XclipRead, DefaultTimeout) == p.run(Clipman.XclipRead, DefaultTimeout)
    requires p.run(XselRead, DefaultTimeout) == p.run(Clipman.XselRead, DefaultTimeout)
    requires p.run(WlPasteRead, DefaultTimeout) == p.run(Clipman.WlPaste, DefaultTimeout)
    requires p.run(TermuxRead, DefaultTimeout) == p.run(Clipman.TermuxGet, DefaultTimeout)
    ensures DetectCopyEngine(osName, p).Ok? <==> Clipman.DetectClipboardEngine(osName, p).Ok?
    ensures DetectCopyEngine(osName, p).Ok? ==>
      Clipman.DetectClipboardEngine(osName, p).value == CurrentTag(DetectCopyEngine(osName, p).value)
    ensures DetectCopyEngine(osName, p).Err? && !DetectCopyEngine(osName, p).error.EngineError? ==>
      DetectCopyEngine(osName, p).error == Clipman.DetectClipboardEngine(osName, p).error
    ensures DetectCopyEngine(osName, p).Err? && DetectCopyEngine(osName, p).error.EngineError? ==>
      Clipman.DetectClipboardEngine(osName, p).Err? && Clipman.DetectClipboardEngine(osName, p).error.EngineError?
      && DetectCopyEngine(osName, p).error.failure.command
         == ShellFor(Clipman.DetectClipboardEngine(osName, p).error.failure.command)
  {
  }
}
