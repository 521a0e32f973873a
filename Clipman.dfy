/** The current clipboard library: engine detection, the (engine, method)
    dispatch table, and the once-written session record that `init` fills
    and every `get`/`set` consults. */
module Clipman {
  import opened Runtime

  // Engine tags `detect_clipboard_engine` returns and `call` dispatches on.
  const Xclip := "xclip"
  const Xsel := "xsel"
  const WlClipboard := "wl-clipboard"
  const TermuxClipboard := "termux-clipboard"
  const WindowsNative := "windows_native_backend"

  /** Timeout `call` gives `wl-copy`. */
  const WlCopyTimeout: nat := 3

  // Read commands; detection runs the same ones as liveness checks.
  const XclipRead := Argv(["xclip", "-selection", "c", "-o"])
  const XselRead := Argv(["xsel"])
  const WlPaste := Argv(["wl-paste"])
  const TermuxGet := Argv(["termux-clipboard-get"])

  predicate IsEngineTag(tag: string)
  {
    tag == Xclip || tag == Xsel || tag == WlClipboard || tag == TermuxClipboard || tag == WindowsNative
  }

  /** `detect_clipboard_engine`: picks exactly one engine for the OS and
      the probed environment, or fails with exactly one detection error. */
  function DetectClipboardEngine(osName: string, p: Probe): (r: Result<string, Error>)
    ensures r.Ok? ==> IsEngineTag(r.value)
    ensures r.Err? ==> IsDetectionError(r.error)
    ensures r == Ok(WindowsNative) <==> osName == "Windows"
    ensures r.Ok? && r.value != WindowsNative ==> osName == "Linux" || osName == "Android"
  {
    if osName == "Linux" then
      var backend := GraphicalBackend(p);
      if backend == "x11" then
        if Xclip in p.installed then CheckRunCommand(XclipRead, p.run(XclipRead, DefaultTimeout), Xclip)
        else if Xsel in p.installed then CheckRunCommand(XselRead, p.run(XselRead, DefaultTimeout), Xsel)
        else Err(NoEnginesFoundError(X11Missing))
      else if backend == "wayland" then
        if "wl-paste" in p.installed then CheckRunCommand(WlPaste, p.run(WlPaste, DefaultTimeout), WlClipboard)
        else Err(NoEnginesFoundError(WaylandMissing))
      else if backend == "tty" then
        Err(UnsupportedError(TtyUnsupported))
      else
        Err(NoEnginesFoundError(UnknownBackendPrefix + backend))
    else if osName == "Android" then
      if "termux-clipboard-get" in p.installed then
        match CheckRunCommand(TermuxGet, p.run(TermuxGet, DefaultTimeout), TermuxClipboard)
        case Err(EngineTimeoutExpired) => Err(NoEnginesFoundError(TermuxTimedOut))
        case other => other
      else
        Err(NoEnginesFoundError(TermuxMissing))
    else if osName == "Windows" then
      Ok(WindowsNative)
    else
      Err(UnsupportedError(UnsupportedOsMessage(osName)))
  }

  /** The `(engine, method)` table of `call`: which invocation serves a
      request, or UnknownError for anything outside the table. */
  function Plan(engine: Option<string>, name: string, text: string): (r: Result<Invocation, Error>)
    ensures r == Err(UnknownError) <==>
      !(engine.Some? && IsEngineTag(engine.value) && (name == "get" || name == "set"))
    ensures r.Err? ==> r.error == UnknownError
    ensures r.Ok? && r.value.Native? ==> engine == Some(WindowsNative)
    ensures r.Ok? && name == "get" ==> r.value.Capture? || r.value == Native(NativePaste)
    ensures r.Ok? && name == "set" ==> Delivers(r.value, text)
  {
    if engine == Some(Xclip) && name == "set" then Ok(Feed(Argv(["xclip", "-selection", "c", "-i"]), text))
    else if engine == Some(Xclip) && name == "get" then Ok(Capture(XclipRead, DefaultTimeout))
    else if engine == Some(Xsel) && name == "set" then Ok(Feed(Argv(["xsel", "-b", "-i"]), text))
    else if engine == Some(Xsel) && name == "get" then Ok(Capture(XselRead, DefaultTimeout))
    else if engine == Some(WlClipboard) && name == "set" then Ok(CaptureIgnoringTimeout(Argv(["wl-copy", text]), WlCopyTimeout))
    else if engine == Some(WlClipboard) && name == "get" then Ok(Capture(WlPaste, DefaultTimeout))
    else if engine == Some(TermuxClipboard) && name == "set" then Ok(Capture(Argv(["termux-clipboard-set", text]), DefaultTimeout))
    else if engine == Some(TermuxClipboard) && name == "get" then Ok(Capture(TermuxGet, DefaultTimeout))
    else if engine == Some(WindowsNative) && name == "set" then Ok(Native(NativeCopy(text)))
    else if engine == Some(WindowsNative) && name == "get" then Ok(Native(NativePaste))
    else Err(UnknownError)
  }

  /** Whether an invocation hands `text` to the engine: on stdin, as the
      last argument, or to the native backend's copy. */
  predicate Delivers(inv: Invocation, text: string)
  {
    match inv
    case Feed(_, input) => input == text
    case Capture(Argv(args), _) => |args| > 0 && args[|args| - 1] == text
    case CaptureIgnoringTimeout(Argv(args), _) => |args| > 0 && args[|args| - 1] == text
    case Native(op) => op == NativeCopy(text)
    case _ => false
  }

  /** `call` once its guards have passed: look the request up in the table
      and carry the invocation out. */
  function Dispatch(engine: Option<string>, name: string, text: string, io: Io): (r: Result<Option<string>, Error>)
    ensures !(engine.Some? && IsEngineTag(engine.value) && (name == "get" || name == "set")) ==> r == Err(UnknownError)
    ensures Plan(engine, name, text).Ok? ==> r == Execute(Plan(engine, name, text).value, io)
  {
    match Plan(engine, name, text)
    case Err(e) => Err(e)
    case Ok(inv) => Execute(inv, io)
  }

  /** Python's `str(text)`: a missing text prints as "None". */
  function Str(text: Option<string>): (s: string)
    ensures text.Some? ==> s == text.value
    ensures text.None? ==> s == "None"
  {
    match text
    case Some(t) => t
    case None => "None"
  }

  /** The module-level `DataClass` record. */
  class Session {
    var osName: string
    var engine: Option<string>
    var initCalled: bool
    /** Whether `windows_native_backend` holds a backend handle. */
    var nativeBackend: bool

    /** The Windows engine is only ever recorded next to a backend handle. */
    ghost predicate Valid()
      reads this
    {
      engine == Some(WindowsNative) ==> nativeBackend
    }

    /** `DataClass()`, built at import time: the OS is detected once. */
    constructor (platform: string, hasAndroidApiLevel: bool)
      ensures Valid()
      ensures osName == DetectOS(platform, hasAndroidApiLevel)
      ensures engine == None && !initCalled && !nativeBackend
    {
      osName := DetectOS(platform, hasAndroidApiLevel);
      engine := None;
      initCalled := false;
      nativeBackend := false;
    }

    /** `init`: records the detected engine, then marks the session as
        initialised. When detection raises, the error is returned and
        neither field has changed. */
    method Init(p: Probe) returns (err: Option<Error>)
      requires Valid()
      modifies this
      ensures Valid()
      ensures osName == old(osName)
      ensures nativeBackend == (old(nativeBackend) || osName == "Windows")
      ensures DetectClipboardEngine(osName, p).Ok? ==>
        err == None && engine == Some(DetectClipboardEngine(osName, p).value) && initCalled
      ensures DetectClipboardEngine(osName, p).Err? ==>
        err == Some(DetectClipboardEngine(osName, p).error)
        && engine == old(engine) && initCalled == old(initCalled)
    {
      if osName == "Windows" {
        nativeBackend := true;
      }
      var detected := DetectClipboardEngine(osName, p);
      if detected.Err? {
        return Some(detected.error);
      }
      engine := Some(detected.value);
      initCalled := true;
      err := None;
    }

    /** `call`: refuses until `init` has succeeded, then refuses `set`
        without text, then dispatches through the table. */
    method Call(name: string, text: Option<string>, io: Io) returns (r: Result<Option<string>, Error>)
      requires Valid()
      ensures !initCalled ==> r == Err(NoInitializationError)
      ensures initCalled && name == "set" && text.None? ==> r == Err(TextNotSpecified)
      ensures initCalled && !(name == "set" && text.None?) ==> r == Dispatch(engine, name, Str(text), io)
    {
      if !initCalled {
        return Err(NoInitializationError);
      }
      if name == "set" && text.None? {
        return Err(TextNotSpecified);
      }
      var plan := Plan(engine, name, Str(text));
      if plan.Err? {
        return Err(plan.error);
      }
      r := Execute(plan.value, io);
    }

    /** `get` (alias `paste`). */
    method Get(io: Io) returns (r: Result<Option<string>, Error>)
      requires Valid()
      ensures !initCalled ==> r == Err(NoInitializationError)
      ensures initCalled ==> r == Dispatch(engine, "get", "None", io)
    {
      r := Call("get", None, io);
    }

    /** `set` (alias `copy`). */
    method Set(text: Option<string>, io: Io) returns (r: Result<Option<string>, Error>)
      requires Valid()
      ensures !initCalled ==> r == Err(NoInitializationError)
      ensures initCalled && text.None? ==> r == Err(TextNotSpecified)
      ensures initCalled && text.Some? ==> r == Dispatch(engine, "set", text.value, io)
    {
      r := Call("set", text, io);
    }
  }

  /** The library's intended use, `init()` then `get()`, on a freshly
      imported module: a failed detection leaves the session
      uninitialised, so the read is refused; otherwise it goes to the
      detected engine. */
  method InitThenGet(platform: string, hasAndroidApiLevel: bool, p: Probe, io: Io)
    returns (r: Result<Option<string>, Error>)
    ensures DetectClipboardEngine(DetectOS(platform, hasAndroidApiLevel), p).Err? ==>
      r == Err(NoInitializationError)
    ensures DetectClipboardEngine(DetectOS(platform, hasAndroidApiLevel), p).Ok? ==>
      r == Dispatch(Some(DetectClipboardEngine(DetectOS(platform, hasAndroidApiLevel), p).value), "get", "None", io)
  {
    var session := new Session(platform, hasAndroidApiLevel);
    var _ := session.Init(p);
    r := session.Get(io);
  }

  // ---- Properties of detection ----

  /** With X11, xclip wins whenever it is installed, and its liveness run
      decides the outcome alone: no fall-through to xsel. */
  lemma X11PrefersXclip(p: Probe)
    requires GraphicalBackend(p) == "x11" && Xclip in p.installed
    ensures DetectClipboardEngine("Linux", p) == Ok(Xclip) <==> p.run(XclipRead, DefaultTimeout).Exit? && p.run(XclipRead, DefaultTimeout).code == 0
    ensures p.run(XclipRead, DefaultTimeout).Timeout? ==> DetectClipboardEngine("Linux", p) == Err(EngineTimeoutExpired)
    ensures p.run(XclipRead, DefaultTimeout).Exit? && p.run(XclipRead, DefaultTimeout).code != 0 ==>
      DetectClipboardEngine("Linux", p) == Err(EngineError(CommandFailed(XclipRead)))
  {
  }

  /** xsel is chosen only when xclip is absent, and then its own liveness
      run decides the outcome; with neither installed, detection raises
      NoEnginesFoundError. */
  lemma X11FallsBackToXsel(p: Probe)
    requires GraphicalBackend(p) == "x11"
    ensures DetectClipboardEngine("Linux", p) == Ok(Xsel) ==> Xclip !in p.installed && Xsel in p.installed
    ensures Xclip !in p.installed && Xsel in p.installed ==>
      DetectClipboardEngine("Linux", p) == CheckRunCommand(XselRead, p.run(XselRead, DefaultTimeout), Xsel)
    ensures Xclip !in p.installed && Xsel !in p.installed ==> DetectClipboardEngine("Linux", p) == Err(NoEnginesFoundError(X11Missing))
  {
  }

  /** Wayland yields wl-clipboard exactly when wl-paste is installed and
      its liveness run succeeds; when it is absent, NoEnginesFoundError;
      when it is installed, its liveness check alone decides, so a broken
      wl-paste is an engine failure and not "no engine found". */
  lemma WaylandNeedsWlPaste(p: Probe)
    requires GraphicalBackend(p) == "wayland"
    ensures DetectClipboardEngine("Linux", p) == Ok(WlClipboard) <==>
      "wl-paste" in p.installed && p.run(WlPaste, DefaultTimeout).Exit? && p.run(WlPaste, DefaultTimeout).code == 0
    ensures "wl-paste" !in p.installed ==> DetectClipboardEngine("Linux", p) == Err(NoEnginesFoundError(WaylandMissing))
    ensures "wl-paste" in p.installed ==>
      DetectClipboardEngine("Linux", p) == CheckRunCommand(WlPaste, p.run(WlPaste, DefaultTimeout), WlClipboard)
  {
  }

  /** A TTY session is unsupported; a missing variable and any other
      unrecognised value end in NoEnginesFoundError echoing the value. */
  lemma UnrecognisedSessionIsEchoed(p: Probe)
    requires GraphicalBackend(p) != "x11" && GraphicalBackend(p) != "wayland"
    ensures GraphicalBackend(p) == "tty" ==> DetectClipboardEngine("Linux", p) == Err(UnsupportedError(TtyUnsupported))
    ensures GraphicalBackend(p) != "tty" ==>
      DetectClipboardEngine("Linux", p).Err? && DetectClipboardEngine("Linux", p).error.NoEnginesFoundError?
      && Contains(DetectClipboardEngine("Linux", p).error.message, GraphicalBackend(p))
    ensures p.sessionType.None? ==> Contains(DetectClipboardEngine("Linux", p).error.message, NotSet)
  {
    if GraphicalBackend(p) != "tty" {
      ContainsAtEnd(UnknownBackendPrefix, GraphicalBackend(p));
    }
  }

  /** On Android a missing binary and a timed-out liveness run both mean
      NoEnginesFoundError, never EngineTimeoutExpired; a non-zero exit of
      the installed binary stays an EngineError naming the command. */
  lemma AndroidNeedsTermuxApi(p: Probe)
    ensures "termux-clipboard-get" !in p.installed ==> DetectClipboardEngine("Android", p) == Err(NoEnginesFoundError(TermuxMissing))
    ensures "termux-clipboard-get" in p.installed && p.run(TermuxGet, DefaultTimeout).Timeout? ==>
      DetectClipboardEngine("Android", p) == Err(NoEnginesFoundError(TermuxTimedOut))
    ensures DetectClipboardEngine("Android", p) == Ok(TermuxClipboard) <==>
      "termux-clipboard-get" in p.installed && p.run(TermuxGet, DefaultTimeout).Exit? && p.run(TermuxGet, DefaultTimeout).code == 0
    ensures ("termux-clipboard-get" in p.installed
             && p.run(TermuxGet, DefaultTimeout).Exit? && p.run(TermuxGet, DefaultTimeout).code != 0) ==>
      DetectClipboardEngine("Android", p) == Err(EngineError(CommandFailed(TermuxGet)))
    ensures DetectClipboardEngine("Android", p) != Err(EngineTimeoutExpired)
  {
  }

  /** Windows always resolves to the native backend; every OS other than
      Linux, Android and Windows is unsupported, and the message names it. */
  lemma OtherSystemsUnsupported(osName: string, p: Probe)
    requires osName != "Linux" && osName != "Android" && osName != "Windows"
    ensures DetectClipboardEngine(osName, p) == Err(UnsupportedError(UnsupportedOsMessage(osName)))
    ensures Contains(DetectClipboardEngine(osName, p).error.message, osName)
  {
    ContainsAfterPrefix(UnsupportedOsPrefix, osName, UnsupportedOsSuffix);
  }

  /** A detected engine reads the clipboard with the very command its
      liveness run already exercised successfully. */
  lemma DetectedEngineReadsProbedCommand(osName: string, p: Probe, text: string)
    requires DetectClipboardEngine(osName, p).Ok?
    requires DetectClipboardEngine(osName, p).value != WindowsNative
    ensures var plan := Plan(Some(DetectClipboardEngine(osName, p).value), "get", text);
      plan.Ok? && plan.value.Capture? && plan.value.timeout == DefaultTimeout
      && p.run(plan.value.command, DefaultTimeout).Exit? && p.run(plan.value.command, DefaultTimeout).code == 0
  {
  }

  // ---- Properties of dispatch ----

  /** A read never depends on the text: `get` hands nothing to the engine. */
  lemma PlanGetIgnoresText(engine: Option<string>, text1: string, text2: string)
    ensures Plan(engine, "get", text1) == Plan(engine, "get", text2)
  {
  }

  /** `set` on wl-clipboard counts a `wl-copy` timeout as success. */
  lemma WlCopyTimeoutIsSwallowed(text: string, io: Io)
    requires io.run(Argv(["wl-copy", text]), WlCopyTimeout).Timeout?
    ensures Dispatch(Some(WlClipboard), "set", text, io) == Ok(None)
  {
  }

  /** Reading from a command-line engine whose tool prints the clipboard
      followed by one line terminator yields exactly the clipboard. */
  lemma GetStripsTerminator(engine: string, clip: string, io: Io)
    requires engine == Xclip || engine == Xsel || engine == WlClipboard || engine == TermuxClipboard
    requires io.run(Plan(Some(engine), "get", "None").value.command, DefaultTimeout) == Exit(0, clip + "\n")
    ensures Dispatch(Some(engine), "get", "None", io) == Ok(Some(clip))
  {
    RunCommandStripsTerminator(clip);
  }
}
