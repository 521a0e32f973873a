# clipman — engine detection and dispatch, modelled in Dafny

clipman gives Python callers one way to read and write the system
clipboard. Its core decides which clipboard *engine* works on the current
machine (`xclip`, `xsel`, `wl-clipboard`, `termux-clipboard` or the Windows
native backend), checking that a candidate tool actually runs before
choosing it. It then routes every `get`/`set` to that engine and maps
process outcomes onto its own error kinds. The repository holds two
generations of this code:

- the current one, `src/clipman/__init__.py`: an explicit `init()`, a
  module-level record (`DataClass`) holding the engine and an
  `init_called` flag, and a `call(method, text)` dispatcher behind
  `get`/`set`;
- an older one, `__init__.py`: detection runs once when the module is
  imported, commands are shell lines, and only `paste` exists.

A release helper, `tags_marker.py`, cleans the output of
`git describe --tags` down to a version number and writes it over a
placeholder in two files.

The model is split into four modules:

- `Runtime` (Runtime.dfy) holds what both generations share: the outcome
  of a process run (`Timeout | Exit(code, stdout)`), the closed error
  taxonomy, the probed environment, and the classification done by
  `run_command`, `run_command_with_paste` and `check_run_command`.
- `Clipman` (Clipman.dfy) holds the current generation. Detection and the
  `(engine, method)` table are pure functions. The `DataClass` record is a
  class, `Session`, with `Init` and `Call` methods.
- `LegacyClipman` (Legacy.dfy) holds the older generation. Importing the
  module is a method that either fails with the detection error or yields
  a `Module` object whose `Paste` uses the engine detected at import.
  A lemma shows that both generations take the same decisions.
- `TagMarker` (TagMarker.dfy) holds the tag cleaning and placeholder
  substitution, modelled on Python's own `str.replace` and `str.find`.

The environment is made of inputs. `Probe` carries the raw
`XDG_SESSION_TYPE` (absent or a string), the set of installed binaries,
and the outcome of running any command with any timeout. `Io` carries
process runs, the exit code of piping text into a process, and the result
of each Windows backend call. The platform name and the presence of
`sys.getandroidapilevel` are parameters of `DetectOS`.

The model follows the code as written:

- With X11 the code prefers `xclip` over `xsel`.
- There is no KDE/klipper branch, no macOS branch, no retry loop around
  timeouts, and no special case for `wl-paste` reporting an empty
  clipboard.
- The "not initialised" error is called `NoInitializationError`.
- The EngineError raised by `run_command` carries the process's standard
  output, although its message labels it STDERR (`NonZeroExit(code, output)`).

## Model

| member | source | states |
|---|---|---|
| Runtime.DetectOS | src/clipman/__init__.py:31-38 | the OS name differs from the platform's name exactly when the platform is "Linux" and the Android marker is present, and then it is "Android" |
| Runtime.RemoveSuffix | src/clipman/__init__.py:50 | `removesuffix`: with the suffix present, result + suffix is the input; otherwise the input comes back unchanged |
| Runtime.RunCommand | src/clipman/__init__.py:40-50 | a timeout is EngineTimeoutExpired and nothing else is; a non-zero exit is EngineError carrying the code and output; exit 0 is success, whose value plus "\n" is stdout when stdout ends in "\n", and is stdout itself otherwise |
| Runtime.RunCommandStripsTerminator | src/clipman/__init__.py:50 | a tool printing a text followed by "\n" is read back as exactly that text |
| Runtime.RunCommandStripsOnlyOne | src/clipman/__init__.py:50 | only one trailing "\n" is removed: text + "\n\n" reads back as text + "\n" |
| Runtime.RunCommandWithPaste | src/clipman/__init__.py:52-62 | success (returning None) exactly when the writer exits 0; otherwise EngineError carrying the exit code |
| Runtime.CheckRunCommand | src/clipman/__init__.py:64-75 | yields the engine tag exactly when the liveness run exits 0; a timeout stays EngineTimeoutExpired; a non-zero exit becomes EngineError naming the command |
| Runtime.GraphicalBackend | src/clipman/__init__.py:93-97 | the session type is the raw `XDG_SESSION_TYPE` value when it is set and "< NOT SET >" when it is missing (the same lines are __init__.py:88-92 in the older generation) |
| Runtime.Execute | src/clipman/__init__.py:166-197 | a captured run with its timeout: a timeout raises EngineTimeoutExpired, a non-zero exit raises EngineError carrying the code and stdout, exit 0 returns stdout minus one trailing "\n"; the ignoring-timeout run returns None on a timeout and is otherwise the same; a piped write returns None on exit 0 and otherwise EngineError carrying the exit code; a native call returns the backend's result |
| Clipman.DetectClipboardEngine | src/clipman/__init__.py:87-131 | total: exactly one known engine tag or exactly one detection error (Unsupported, NoEnginesFound, EngineError, EngineTimeoutExpired); the Windows tag exactly on Windows; any other tag only on Linux or Android |
| Clipman.X11PrefersXclip | src/clipman/__init__.py:99-101 | with X11 and xclip installed, xclip is chosen exactly when its liveness run exits 0; a timeout stays EngineTimeoutExpired; a non-zero exit is EngineError for the xclip command, with no fall-through to xsel |
| Clipman.X11FallsBackToXsel | src/clipman/__init__.py:99-104 | xsel is chosen only when xclip is absent and xsel installed; with xclip absent and xsel installed, the outcome is xsel's own liveness check (the xsel tag on exit 0, EngineTimeoutExpired on a timeout, EngineError for the xsel command otherwise); neither installed raises NoEnginesFoundError with the X11 message |
| Clipman.WaylandNeedsWlPaste | src/clipman/__init__.py:106-109 | wl-clipboard is chosen exactly when wl-paste is installed and its liveness run exits 0; wl-paste absent raises NoEnginesFoundError; an installed wl-paste is judged by its liveness check alone, so a timeout raises EngineTimeoutExpired and a non-zero exit raises EngineError naming `wl-paste`, never NoEnginesFoundError |
| Clipman.UnrecognisedSessionIsEchoed | src/clipman/__init__.py:92-115 | "tty" raises UnsupportedError; any other value than x11/wayland/tty raises NoEnginesFoundError whose message contains that value, and a missing variable appears as "< NOT SET >" |
| Clipman.AndroidNeedsTermuxApi | src/clipman/__init__.py:117-124 | termux-clipboard-get absent, or its liveness run timing out, raises NoEnginesFoundError (never EngineTimeoutExpired); a non-zero exit of the installed binary raises EngineError naming `termux-clipboard-get`; termux-clipboard is chosen exactly when it is installed and exits 0 |
| Clipman.OtherSystemsUnsupported | src/clipman/__init__.py:126-131 | every OS other than Linux, Android and Windows raises UnsupportedError whose message names the OS |
| Clipman.DetectedEngineReadsProbedCommand | src/clipman/__init__.py:166-190 | for every detected command-line engine, `get` runs with the default timeout the very command whose liveness run during detection exited 0 |
| Clipman.Plan | src/clipman/__init__.py:165-199 | the dispatch table raises UnknownError exactly when the engine is not one of the five tags or the method is neither get nor set; get is a captured run or the native paste; set always delivers the text (stdin, last argument, or native copy); native calls only for the Windows tag |
| Clipman.PlanGetIgnoresText | src/clipman/__init__.py:165-199 | get never hands over the text: the invocation chosen for get is the same whatever text is passed |
| Clipman.Dispatch | src/clipman/__init__.py:165-199 | outside the table (an unknown engine, or a method other than get and set) the call raises UnknownError; inside it, the call carries out the table's invocation |
| Clipman.Str | src/clipman/__init__.py:163 | `str(text)`: a given text is passed on unchanged, and a missing one becomes the four characters "None" |
| Clipman.WlCopyTimeoutIsSwallowed | src/clipman/__init__.py:176-181 | set on wl-clipboard whose wl-copy run times out returns None instead of raising |
| Clipman.GetStripsTerminator | src/clipman/__init__.py:166-190 | get on any command-line engine whose tool prints the clipboard plus "\n" returns exactly the clipboard |
| Clipman.Session.constructor | src/clipman/__init__.py:77-85 | the record starts with the detected OS, no engine, no backend handle, and init_called false |
| Clipman.Session.Init | src/clipman/__init__.py:201-204 | on successful detection, engine is the detected tag and init_called is true; when detection raises, the error is returned and engine and init_called keep their previous values; the backend handle is created on Windows |
| Clipman.Session.Call | src/clipman/__init__.py:150-199 | before init every call raises NoInitializationError, checked before anything else; after init, set without text raises TextNotSpecified; otherwise the result is the table entry carried out |
| Clipman.Session.Get | src/clipman/__init__.py:133-138 | get is refused before init and otherwise reads through the engine's get entry |
| Clipman.Session.Set | src/clipman/__init__.py:140-144 | set is refused before init, refused without text, and otherwise writes the text through the engine's set entry |
| Clipman.InitThenGet | src/clipman/__init__.py:201-204 | on a fresh record, init followed by get: when detection fails the record stays uninitialised and get raises NoInitializationError; otherwise get goes to the detected engine |
| LegacyClipman.DetectCopyEngine | __init__.py:82-126 | total: exactly one of the five older tags or exactly one detection error; the Windows tag exactly on Windows |
| LegacyClipman.PastePlan | __init__.py:128-149 | paste raises UnknownError exactly for a tag outside the five; every known tag reads with a shell command and the fixed timeout 5, or through the native backend |
| LegacyClipman.PasteResult | __init__.py:128-149 | paste for a tag: UnknownError for a tag outside the five; the native backend's paste for the Windows tag; otherwise the tag's shell line run with timeout 5, raising EngineTimeoutExpired on a timeout and EngineError with code and stdout on a non-zero exit, and returning stdout minus one trailing "\n" on exit 0 |
| LegacyClipman.Module.Paste | __init__.py:128-149 | paste on the module reads with the engine recorded at import: UnknownError for a tag outside the five; the native backend's paste for the Windows tag; otherwise the result of the tag's shell line, as classified by `run_command` |
| LegacyClipman.ImportThenPaste | __init__.py:128-152 | importing and then pasting: a detection error fails the import and is what the caller sees; otherwise the paste is that of the detected tag |
| LegacyClipman.Module.constructor | __init__.py:151-152 | the module's globals hold the given OS, engine and backend flag, and a Windows engine comes only with a backend handle, so the module is valid |
| LegacyClipman.Import | __init__.py:151-152 | importing detects the OS first and then the engine; a detection error fails the import, otherwise the module records both, holds a backend handle exactly when the OS is Windows (the handle starts as None at line 78 and only the Windows branch at line 123 creates it), and its engine is one of the five tags |
| LegacyClipman.DetectedEnginePastesProbedCommand | __init__.py:94-143 | every detected command-line tag is pasted with the same command whose liveness run exited 0 |
| LegacyClipman.X11PrefersXclip | __init__.py:94-99 | with X11 and xclip installed, the outcome is xclip's liveness check alone; xsel only without xclip; neither raises NoEnginesFoundError |
| LegacyClipman.MissingSessionTypeIsEchoed | __init__.py:87-110 | a missing XDG_SESSION_TYPE raises NoEnginesFoundError whose message contains "< NOT SET >"; "tty" raises UnsupportedError |
| LegacyClipman.AndroidNeedsTermuxApi | __init__.py:112-119 | an absent termux-clipboard-get and a timed-out liveness run both raise NoEnginesFoundError; a non-zero exit raises EngineError naming the shell line |
| LegacyClipman.OtherSystemsUnsupported | __init__.py:121-126 | every OS other than Linux, Android and Windows raises UnsupportedError naming the OS |
| LegacyClipman.GenerationsAgree | __init__.py:82-126 | when each liveness command behaves the same as a shell line and as an argument vector, both generations succeed together, with tags that correspond (wl-paste/wl-clipboard, termux-clipboard-get/termux-clipboard), and fail with the same error up to the form of the failing command |
| TagMarker.Find | tags_marker.py:46 | `str.find("-")`: -1 exactly when there is no dash; otherwise the index of a dash with no dash before it |
| TagMarker.Replace | tags_marker.py:56 | `str.replace` with a non-empty pattern and a replacement of the same length keeps the length of the content |
| TagMarker.Without | tags_marker.py:45 | the filter removing one character: none of it is left, every remaining character comes from the input, and every other character keeps its count |
| TagMarker.DeleteCharIsFilter | tags_marker.py:45 | `replace(c, "")` is exactly that order-keeping filter |
| TagMarker.StripJunk | tags_marker.py:45 | the stripped tag is the input with every "\n" and then every "v" filtered out: neither is left, and every other character survives with its count and in its order |
| TagMarker.CleanTag | tags_marker.py:45-47 | the cleaned tag has no "\n" and no "v"; a first dash at index 2 or more cuts the tag to the prefix before it, which holds no dash; a dash absent or at index 0 or 1 keeps the tag whole |
| TagMarker.CleanTagIdempotent | tags_marker.py:45-47 | cleaning a cleaned tag changes nothing |
| TagMarker.ReplaceAbsent | tags_marker.py:56 | `str.replace` of a pattern that does not occur returns the string unchanged |
| TagMarker.MarkVersion | tags_marker.py:56 | content without "!!{PLACEHOLDER}!!" is written back unchanged (the same call is line 71 for the second file) |
| TagMarker.MarkSinglePlaceholder | tags_marker.py:71 | content holding the placeholder at exactly one position becomes the text before it, the tag, and the text after it |

## Left out

- Running processes, `shutil.which`, `os.environ`, `platform.system`, the `sys` probe and UTF-8 decoding are inputs (`Probe`, `Io`, the parameters of `DetectOS`); wall-clock time is reduced to the outcome `Timeout`.
- The older generation runs its commands through a shell (`shell=True`); the model keeps the command line as a string and does not model shell parsing.
- The Windows backend (`windows.WindowsClipboard`) is not part of this model: its paste and copy are an input function, and its construction is a flag.
- exceptions.py only declares classes; the model uses one closed error type. The code also raises or catches names that file does not declare: it raises `NoInitializationError`, `TextNotSpecified` and `UnknownError`, and `check_run_command` catches `ClipmanBaseException` where the file declares the base class as `BaseException`. The model treats them as declared and does not model Python's attribute-lookup failure.
- Clipman.Session.Call: requires that the Windows tag is only recorded next to a backend handle, which `init` guarantees. A hand-set engine without a handle would make Python fail on `None`, which is not modelled.
- LegacyClipman.Module.Paste: requires the same invariant, for the same reason. A tag outside the five needs no such guard and raises UnknownError.
- Clipman.Str: `set` is meant to take a string or None; `str()` of any other object (`set(42)` copying "42", src/clipman/__init__.py:163) is not modelled, because the model's text is a string or absent.
- Error messages are kept verbatim for detection. The timeout message of `run_command` and the message text of EngineError are reduced to their data (the exit code, the output, the command).
- src/clipman/__version__.py is a package-metadata lookup with a fallback string and is not part of this model.
- The script parts of tags_marker.py are left out: the git call, the prints, and reading, seeking, writing and truncating the two files. Only the string functions are modelled.
