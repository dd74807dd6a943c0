/** The method-channel handler of the macOS application delegate: dispatch,
    the accessibility-gated foreground query, the permission request decision
    and the platform descriptor. The OS answers are fields of `MacOs`. */
module MacDelegate {
  import opened Wrappers
  import opened Channel

  /** The frontmost application; its localized name may be nil. */
  datatype RunningApp = RunningApp(localizedName: Option<string>)

  /** What the OS answers during one call: AXIsProcessTrusted, the frontmost
      application, what AXIsProcessTrustedWithOptions returns after prompting,
      and the operating-system version string. */
  datatype MacOs = MacOs(
    trusted: bool,
    frontmost: Option<RunningApp>,
    promptResult: bool,
    versionString: string)

  const NoPermissionsError := Error("NO_PERMISSIONS", "Accessibility permissions required",
    Str("Please grant accessibility permissions in System Preferences > Security & Privacy > Privacy > Accessibility"))

  const NoAppError := Error("NO_APP", "Could not get frontmost application", Null)

  /** The reply of getForegroundApp and whether the frontmost application was looked up. */
  datatype ForegroundQuery = ForegroundQuery(reply: Reply, consultedWorkspace: bool)

  /** getForegroundAppName (AppDelegate.swift:53-74). */
  function GetForegroundAppName(os: MacOs): (q: ForegroundQuery)
    // An untrusted process is refused before the workspace is consulted.
    ensures !os.trusted ==> q == ForegroundQuery(NoPermissionsError, false)
    ensures os.trusted ==> q.consultedWorkspace
    ensures os.trusted && os.frontmost.None? ==> q.reply == NoAppError
    // Otherwise the localized name is sent, nil becoming a null value.
    ensures os.trusted && os.frontmost.Some? ==>
      q.reply == Success(match os.frontmost.value.localizedName
                         case Some(n) => Str(n)
                         case None => Null)
  {
    if !os.trusted then ForegroundQuery(NoPermissionsError, false)
    else
      match os.frontmost
      case Some(app) =>
        (match app.localizedName
         case Some(name) => ForegroundQuery(Success(Str(name)), true)
         case None => ForegroundQuery(Success(Null), true))
      case None => ForegroundQuery(NoAppError, true)
  }

  /** The reply of requestPermissions, whether the user was prompted, and
      whether the accessibility settings page was opened. */
  datatype PermissionRequest = PermissionRequest(reply: Reply, prompted: bool, openedSettings: bool)

  /** requestAccessibilityPermissions (AppDelegate.swift:81-102). */
  function RequestPermissions(os: MacOs): (p: PermissionRequest)
    // The answer is true exactly when settings were opened.
    ensures p.reply == Success(Bool(p.openedSettings))
    // Only an untrusted process is prompted.
    ensures p.prompted <==> !os.trusted
    // Settings open only when the prompt did not grant trust.
    ensures p.openedSettings <==> !os.trusted && !os.promptResult
  {
    if os.trusted then PermissionRequest(Success(Bool(false)), false, false)
    else if !os.promptResult then PermissionRequest(Success(Bool(true)), true, true)
    else PermissionRequest(Success(Bool(false)), true, false)
  }

  const PermissionsLocation := "System Preferences > Security & Privacy > Privacy > Accessibility"

  /** getPlatformInfo (AppDelegate.swift:104-114). */
  function GetPlatformInfo(os: MacOs): (info: map<string, Value>)
    ensures info.Keys == {"platform", "supported", "version", "hasPermissions",
                          "requiresPermissions", "permissionsLocation"}
    ensures info["platform"] == Str("macOS") && info["supported"] == Bool(true)
    ensures info["version"] == Str(os.versionString)
    ensures info["hasPermissions"] == Bool(os.trusted)
    ensures info["requiresPermissions"] == Bool(true)
    ensures info["permissionsLocation"] == Str(PermissionsLocation)
  {
    map[
      "platform" := Str("macOS"),
      "supported" := Bool(true),
      "version" := Str(os.versionString),
      "hasPermissions" := Bool(os.trusted),
      "requiresPermissions" := Bool(true),
      "permissionsLocation" := Str(PermissionsLocation)]
  }

  /** handleMethodCall (AppDelegate.swift:36-51). */
  function HandleMethodCall(name: string, os: MacOs): (r: Reply)
    ensures r.NotImplemented? <==> name !in Methods
    ensures name == TestMethod ==> r == Success(Str("success"))
    ensures name == CheckPermissionsMethod ==> r == Success(Bool(os.trusted))
    ensures name == RequestPermissionsMethod ==> r == RequestPermissions(os).reply
    ensures name == GetForegroundAppMethod ==> r == GetForegroundAppName(os).reply
    ensures name == GetPlatformInfoMethod ==> r == Success(Dict(GetPlatformInfo(os)))
  {
    if name == GetForegroundAppMethod then GetForegroundAppName(os).reply
    else if name == CheckPermissionsMethod then Success(Bool(os.trusted))
    else if name == RequestPermissionsMethod then RequestPermissions(os).reply
    else if name == GetPlatformInfoMethod then Success(Dict(GetPlatformInfo(os)))
    else if name == TestMethod then Success(Str("success"))
    else NotImplemented
  }

  /** The permission answers agree: the foreground query is refused for lack
      of permission exactly when checkPermissions answers false, which is what
      the descriptor's "hasPermissions" says; requestPermissions answers true
      only then, and exactly when the prompt also failed. */
  lemma PermissionAnswersAgree(os: MacOs)
    ensures HandleMethodCall(GetForegroundAppMethod, os) == NoPermissionsError <==>
      HandleMethodCall(CheckPermissionsMethod, os) == Success(Bool(false))
    ensures HandleMethodCall(CheckPermissionsMethod, os) == Success(GetPlatformInfo(os)["hasPermissions"])
    ensures HandleMethodCall(RequestPermissionsMethod, os) == Success(Bool(true)) <==>
      HandleMethodCall(CheckPermissionsMethod, os) == Success(Bool(false)) && !os.promptResult
    ensures GetPlatformInfo(os)["requiresPermissions"] == Bool(true)
  {
  }
}
