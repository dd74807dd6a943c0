/** The method-channel handler of the Windows runner: dispatch by method name,
    the foreground query with its fixed error order and handle discipline,
    the reduction of an image path to an application name, and the platform
    descriptor. */
module WindowsRunner {
  import opened Wrappers
  import opened Channel
  import Text

  /** MAX_PATH: the size, in UTF-16 code units, of the wide-character buffer
      the image path is read into; a path here is a sequence of those units. */
  const MaxPath: nat := 260

  /** OSVERSIONINFOW's three DWORD components. */
  datatype OsVersion = OsVersion(major: nat, minor: nat, build: nat)

  /** What the OS answers during one call: whether GetForegroundWindow gives
      a window, whether OpenProcess on its owner succeeds, the owner's image
      path when QueryFullProcessImageNameW can produce it, and the version
      GetVersionExW reports when it succeeds. */
  datatype Win32 = Win32(
    hasForegroundWindow: bool,
    openProcessSucceeds: bool,
    imagePath: Option<string>,
    version: Option<OsVersion>)

  /** Process-handle events, in the order they happen. */
  datatype HandleEvent = Opened | Closed

  /** The reply and the handle events of one foreground query. */
  datatype Answer = Answer(reply: Reply, handles: seq<HandleEvent>)

  /** The final path component: the suffix after the last backslash, or the
      whole path when there is none (flutter_window.cpp:143-146). */
  function FileName(path: string): (name: string)
    ensures '\\' !in name
    ensures |name| <= |path| && path[|path| - |name|..] == name
    ensures '\\' in path ==> |name| < |path| && path[|path| - |name| - 1] == '\\'
    ensures '\\' !in path ==> name == path
  {
    match Text.LastIndexOf(path, '\\')
    case Some(slash) => path[slash + 1..]
    case None => path
  }

  predicate EndsWithExe(name: string) {
    |name| >= 4 && name[|name| - 4..] == ".exe"
  }

  /** In a name ending in ".exe" the last dot is the one that starts the suffix. */
  lemma LastDotOfExe(name: string)
    ensures EndsWithExe(name) ==> Text.LastIndexOf(name, '.') == Some(|name| - 4)
  {
    if EndsWithExe(name) {
      var suffix := name[|name| - 4..];
      assert name[|name| - 4] == suffix[0] == '.';
    }
  }

  /** Drops the extension when the text from the last dot is exactly ".exe";
      the comparison is case-sensitive (flutter_window.cpp:149-152). */
  function StripExe(name: string): (stem: string)
    ensures EndsWithExe(name) ==> stem + ".exe" == name
    ensures !EndsWithExe(name) ==> stem == name
  {
    LastDotOfExe(name);
    match Text.LastIndexOf(name, '.')
    case Some(dot) =>
      if name[dot..] == ".exe" then name[..dot]
      else name
    case None =>
      assert !EndsWithExe(name) by {
        if |name| >= 4 {
          assert name[|name| - 4] == name[|name| - 4..][0];
        }
      }
      name
  }

  /** The application name reported for an image path. */
  function AppName(path: string): (name: string)
    ensures '\\' !in name
    ensures EndsWithExe(FileName(path)) ==> name + ".exe" == FileName(path)
    ensures !EndsWithExe(FileName(path)) ==> name == FileName(path)
  {
    StripExe(FileName(path))
  }

  /** QueryFullProcessImageNameW with a MAX_PATH buffer: it fails when the OS
      cannot produce the path or when the path and its terminator do not fit. */
  function ImageName(os: Win32): (path: Option<string>)
    ensures path.Some? ==> path == os.imagePath && |path.value| < MaxPath
    ensures path.Some? <==> os.imagePath.Some? && |os.imagePath.value| < MaxPath
  {
    if os.imagePath.Some? && |os.imagePath.value| < MaxPath then os.imagePath else None
  }

  /** The three errors of the foreground query (flutter_window.cpp:120, 131, 162). */
  const NoWindowError: Reply := Error("NO_WINDOW", "Could not get foreground window", Null)
  const NoProcessError: Reply := Error("NO_PROCESS", "Could not open process", Null)
  const GetNameFailedError: Reply := Error("GET_NAME_FAILED", "Could not get process name", Null)

  /** FlutterWindow::GetForegroundAppName (flutter_window.cpp:115-164). */
  function GetForegroundAppName(os: Win32): (a: Answer)
    // The first failing stage names the error.
    ensures a.reply.Error? && a.reply.code == "NO_WINDOW" <==> !os.hasForegroundWindow
    ensures a.reply.Error? && a.reply.code == "NO_PROCESS" <==>
      os.hasForegroundWindow && !os.openProcessSucceeds
    ensures a.reply.Error? && a.reply.code == "GET_NAME_FAILED" <==>
      os.hasForegroundWindow && os.openProcessSucceeds && ImageName(os).None?
    ensures a.reply.Success? <==> os.hasForegroundWindow && os.openProcessSucceeds && ImageName(os).Some?
    ensures a.reply.Error? || a.reply.Success?
    ensures a.reply.Error? ==> a.reply.details == Null
    ensures !os.hasForegroundWindow ==> a.reply == NoWindowError
    ensures os.hasForegroundWindow && !os.openProcessSucceeds ==> a.reply == NoProcessError
    ensures os.hasForegroundWindow && os.openProcessSucceeds && ImageName(os).None? ==>
      a.reply == GetNameFailedError
    // On success the name is the image path's file name without a ".exe" suffix.
    ensures a.reply.Success? ==> os.imagePath.Some? && a.reply.value == Str(AppName(os.imagePath.value))
    // A process handle is opened only when OpenProcess succeeds, and then closed exactly once.
    ensures a.handles == (if os.hasForegroundWindow && os.openProcessSucceeds then [Opened, Closed] else [])
  {
    if !os.hasForegroundWindow then
      Answer(NoWindowError, [])
    else if !os.openProcessSucceeds then
      Answer(NoProcessError, [])
    else
      match ImageName(os)
      case Some(path) => Answer(Success(Str(AppName(path))), [Opened, Closed])
      case None => Answer(GetNameFailedError, [Opened, Closed])
  }

  /** `major.minor.build`, each in decimal (flutter_window.cpp:184-186). */
  function VersionString(v: OsVersion): (version: string)
    // Exactly two dots, separating the three decimal renderings.
    ensures Text.Split(version, '.') ==
      [Text.NatToString(v.major), Text.NatToString(v.minor), Text.NatToString(v.build)]
  {
    var a, b, c := Text.NatToString(v.major), Text.NatToString(v.minor), Text.NatToString(v.build);
    assert '.' !in a && '.' !in b && '.' !in c by {
      assert forall i :: 0 <= i < |a| ==> Text.IsDigit(a[i]);
      assert forall i :: 0 <= i < |b| ==> Text.IsDigit(b[i]);
      assert forall i :: 0 <= i < |c| ==> Text.IsDigit(c[i]);
    }
    Text.SplitWhole(c, '.');
    Text.SplitAfterPiece(b, c, '.');
    Text.SplitAfterPiece(a, b + "." + c, '.');
    assert a + "." + b + "." + c == a + ['.'] + (b + ['.'] + c);
    a + "." + b + "." + c
  }

  /** Reads a `major.minor.build` string back. */
  function ParseVersion(s: string): Option<OsVersion> {
    var parts := Text.Split(s, '.');
    if |parts| == 3 && Text.AllDigits(parts[0]) && Text.AllDigits(parts[1]) && Text.AllDigits(parts[2])
       && parts[0] != "" && parts[1] != "" && parts[2] != ""
    then Some(OsVersion(Text.ParseNat(parts[0]), Text.ParseNat(parts[1]), Text.ParseNat(parts[2])))
    else None
  }

  /** The version string names its three components unambiguously. */
  lemma {:induction false} ParseVersionString(v: OsVersion)
    ensures ParseVersion(VersionString(v)) == Some(v)
  {
    Text.ParseNatToString(v.major);
    Text.ParseNatToString(v.minor);
    Text.ParseNatToString(v.build);
  }

  /** The keys the descriptor always carries. */
  const FixedInfoKeys: set<string> :=
    {"platform", "supported", "hasPermissions", "requiresPermissions", "permissionsLocation"}

  /** FlutterWindow::GetPlatformInfo (flutter_window.cpp:166-191). */
  function GetPlatformInfo(version: Option<OsVersion>): (info: map<string, Value>)
    ensures info.Keys == FixedInfoKeys + (if version.Some? then {"version"} else {})
    ensures info["platform"] == Str("Windows")
    ensures info["supported"] == Bool(true) && info["hasPermissions"] == Bool(true)
    ensures info["requiresPermissions"] == Bool(false)
    ensures info["permissionsLocation"] == Str("None required")
    ensures version.Some? ==> info["version"] == Str(VersionString(version.value))
    ensures "version" in info ==> info["version"].Str? && ParseVersion(info["version"].s) == version
  {
    var fixed := map[
      "platform" := Str("Windows"),
      "supported" := Bool(true),
      "hasPermissions" := Bool(true),
      "requiresPermissions" := Bool(false),
      "permissionsLocation" := Str("None required")];
    match version
    case Some(v) => ParseVersionString(v); fixed["version" := Str(VersionString(v))]
    case None => fixed
  }

  /** FlutterWindow::HandleMethodCall (flutter_window.cpp:92-113). */
  function HandleMethodCall(name: string, os: Win32): (r: Reply)
    ensures r.NotImplemented? <==> name !in Methods
    ensures name == TestMethod ==> r == Success(Str("success"))
    ensures name == CheckPermissionsMethod ==> r == Success(Bool(true))
    ensures name == RequestPermissionsMethod ==> r == Success(Bool(false))
    ensures name == GetForegroundAppMethod ==> r == GetForegroundAppName(os).reply
    ensures name == GetPlatformInfoMethod ==> r == Success(Dict(GetPlatformInfo(os.version)))
  {
    if name == GetForegroundAppMethod then GetForegroundAppName(os).reply
    else if name == CheckPermissionsMethod then Success(Bool(true))
    else if name == RequestPermissionsMethod then Success(Bool(false))
    else if name == GetPlatformInfoMethod then Success(Dict(GetPlatformInfo(os.version)))
    else if name == TestMethod then Success(Str("success"))
    else NotImplemented
  }

  /** The three permission answers agree: checkPermissions says what the
      descriptor's "hasPermissions" says, namely that access is held, the
      descriptor requires nothing, requestPermissions has nothing to open,
      and the foreground query never fails for lack of permission. */
  lemma PermissionAnswersAgree(os: Win32)
    ensures HandleMethodCall(CheckPermissionsMethod, os) ==
      Success(GetPlatformInfo(os.version)["hasPermissions"])
    ensures HandleMethodCall(CheckPermissionsMethod, os) == Success(Bool(true))
    ensures GetPlatformInfo(os.version)["requiresPermissions"] == Bool(false)
    ensures HandleMethodCall(RequestPermissionsMethod, os) == Success(Bool(false))
    ensures HandleMethodCall(GetForegroundAppMethod, os).Error? ==>
      HandleMethodCall(GetForegroundAppMethod, os).code in {"NO_WINDOW", "NO_PROCESS", "GET_NAME_FAILED"}
  {
  }

  /** The file name of `dir\file` is `file` whenever `file` has no backslash. */
  lemma FileNameOfJoin(dir: string, file: string)
    requires '\\' !in file
    ensures FileName(dir + "\\" + file) == file
  {
    var path := dir + "\\" + file;
    var name := FileName(path);
    assert path[|dir|] == '\\';
    assert path[|path| - |file|..] == file;
  }

  /** A full path ending in "MyApp.exe" reports "MyApp". */
  lemma AppNameStripsExe()
    ensures AppName("C:\\Apps\\Sub\\MyApp.exe") == "MyApp"
  {
    FileNameOfJoin("C:\\Apps\\Sub", "MyApp.exe");
    assert "C:\\Apps\\Sub" + "\\" + "MyApp.exe" == "C:\\Apps\\Sub\\MyApp.exe";
    assert EndsWithExe("MyApp.exe") && "MyApp" + ".exe" == "MyApp.exe";
  }

  /** The comparison is case-sensitive: an upper-case extension stays. */
  lemma AppNameKeepsUpperCaseExe()
    ensures AppName("C:\\Apps\\Sub\\MyApp.EXE") == "MyApp.EXE"
  {
    FileNameOfJoin("C:\\Apps\\Sub", "MyApp.EXE");
    assert "C:\\Apps\\Sub" + "\\" + "MyApp.EXE" == "C:\\Apps\\Sub\\MyApp.EXE";
    assert !EndsWithExe("MyApp.EXE");
  }

  /** Only the text from the last dot counts. */
  lemma StripExeExamples()
    ensures StripExe("a.b.exe") == "a.b"
    ensures StripExe("a.exe.bak") == "a.exe.bak"
    ensures StripExe("notepad") == "notepad"
  {
    assert EndsWithExe("a.b.exe") && "a.b" + ".exe" == "a.b.exe";
    assert !EndsWithExe("a.exe.bak");
    assert !EndsWithExe("notepad");
  }

  /** Stripping is not idempotent: a doubled suffix loses one ".exe" per pass. */
  lemma StripExeNotIdempotent()
    ensures StripExe("a.exe.exe") == "a.exe"
    ensures StripExe(StripExe("a.exe.exe")) == "a"
  {
    assert EndsWithExe("a.exe.exe");
    assert EndsWithExe("a.exe");
  }

  /** A name without a ".exe" suffix passes through unchanged, and a stripped
      name is stripped again only if it still ends in ".exe". */
  lemma StripExeFixedPoint(name: string)
    ensures !EndsWithExe(name) ==> StripExe(name) == name
    ensures StripExe(StripExe(name)) == StripExe(name) <==> !EndsWithExe(StripExe(name))
  {
  }
}
