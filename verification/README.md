# Dailio foreground-application detection, modelled in Dafny

Dailio's native runners tell the Flutter side which application is in the
foreground. Each platform answers the same five method-channel calls
(`getForegroundApp`, `checkPermissions`, `requestPermissions`,
`getPlatformInfo`, `test`) on the channel `dailio/foreground_app`. On Linux
a `ForegroundAppDetector` picks a backend once, when it is built.

This project models the decision logic around the OS calls. Every OS answer
is an input value:

- `X11Detector`: the X11 strategy. It reads the input focus, rejects `None` (0)
  and `PointerRoot` (1), and climbs the window hierarchy until a window's parent
  is the root or `XQueryTree` fails. Then it names that window from `WM_CLASS`
  res_class, else `WM_NAME` (`XFetchName`), else the `_NET_WM_NAME` property
  (requested with offset 0, length 1024 and type `UTF8_STRING`). Text the X
  server returns is a byte string: each `char` in the model stands for one
  byte, so a 32-bit unit of a property is four `char`s. The hierarchy
  is a parent map. Its finiteness is a ghost `rank` that strictly decreases
  toward the root; that rank is also the termination measure of the walk. The
  requests made are returned as a log, so the model can state which requests
  are never made.
- `LinuxDetector`: the one-shot X11 / Wayland / None selector. Wayland is a
  stub that is never available. The selector is an immutable value: queries
  take it as input and return only a string, so no query can change the backend.
- `WindowsRunner`: the error order of the foreground query is NO_WINDOW, then
  NO_PROCESS, then GET_NAME_FAILED. The process handle is closed exactly once
  after it is opened; this is shown by a handle-event log. The image path is
  reduced to a name by taking the text after the last `\` and dropping a
  trailing `.exe`. Also modelled: the dispatch table and the platform
  descriptor with its `major.minor.build` version string.
- `AndroidActivity`: the scan of the last ten seconds of usage events. It
  keeps the `MOVE_TO_FOREGROUND` event with the largest time stamp. Because the
  comparison is a strict `>` starting from 0, the first of equal time stamps
  wins. Also modelled: the label lookup that falls back to the package name,
  the permission request decision, the descriptor and dispatch.
- `MacDelegate`: the accessibility-gated query, the decision over
  (trusted, prompt result) for the permission request, the descriptor and dispatch.
- `Channel`, `Text`, `Wrappers`: the method names, reply values and string
  helpers. The helpers are `find_last_of`, C-string reading and `std::to_string`,
  with inverses used to state round trips.

The `.exe` comparison at `flutter_window.cpp:150` is exact and
case-sensitive, so `MyApp.EXE` keeps its extension
(`WindowsRunner.AppNameKeepsUpperCaseExe`).

The X11 walk can also end without reaching a top-level window: when
`XQueryTree` fails, the last window reached is the one that gets named. The
model keeps that case too (`X11Detector.TopLevel`). A focus on the root
window itself is not rejected by the sentinel test: the walk then moves on to
the root's parent, `None`, and queries it
(`X11Detector.FocusOnRootWalksToNoWindow`).

## Model

| member | source | states |
|---|---|---|
| X11Detector.Path | dailio/linux/runner/foreground_app_detector.cc:46-62 | the windows the tree walk queries form a walk from the focus window: each step goes to the parent, which is not the root; the walk stops where XQueryTree fails or the parent is the root; its length is bounded by the rank (depth) of the focus window |
| X11Detector.WalkUnique | dailio/linux/runner/foreground_app_detector.cc:46-62 | the walk is determined by its start: two walks from the same window are equal |
| X11Detector.TopLevel | dailio/linux/runner/foreground_app_detector.cc:46-62 | the window named is the last window of the one walk that starts at the focus window (any IsWalk from it ends there); it is a top-level window (its parent is the root) or one on which XQueryTree fails |
| X11Detector.FocusOnRootWalksToNoWindow | dailio/linux/runner/foreground_app_detector.cc:38-61 | when the focus is the root window (whose parent XQueryTree reports as None) and the root is not PointerRoot, the None/PointerRoot test lets it through: the requests begin GetInputFocus, QueryTree(root), QueryTree(None), and window None is the one named |
| X11Detector.WalkToTopLevel | dailio/linux/runner/foreground_app_detector.cc:43-62 | the `while (true)` loop with its two breaks terminates on every finite rooted hierarchy, ends at the end of the walk, and makes one XQueryTree call per walked window |
| X11Detector.Open | dailio/linux/runner/foreground_app_detector.cc:13-25 | IsAvailable holds exactly when XOpenDisplay gave a connection |
| X11Detector.Delivered | dailio/linux/runner/foreground_app_detector.cc:98-101 | a property read returns a prefix of the stored value from the offset, of exactly min(remaining length, 4 bytes per requested 32-bit unit) characters, so a title under 4096 bytes comes back whole |
| X11Detector.ClassName | dailio/linux/runner/foreground_app_detector.cc:66-79 | the class candidate is empty when XGetClassHint fails or res_class is null, and otherwise the res_class text up to its first NUL |
| X11Detector.Resolve | dailio/linux/runner/foreground_app_detector.cc:64-110 | a non-empty res_class is the answer whatever WM_NAME and _NET_WM_NAME hold, and nothing else is read; failing that, a successful XFetchName is the answer even when empty; _NET_WM_NAME is requested only after both failed, always with NetWmNameRequest (offset 0, length 1024, UTF8_STRING), and once both failed the two atoms are interned and it is always requested; all three failing gives "" |
| X11Detector.GetForegroundAppName | dailio/linux/runner/foreground_app_detector.cc:27-111 | with no display the answer is "" and no request is made; a None or PointerRoot focus gives "" after only GetInputFocus; otherwise the tree is queried along the walk and the window it ends at is named; a non-empty answer implies a connection and a real focus window |
| X11Detector.ClassHintDecides | dailio/linux/runner/foreground_app_detector.cc:64-79 | when the top-level window has a non-empty class, changing WM_NAME and _NET_WM_NAME changes neither the answer nor the requests |
| Text.CString | dailio/linux/runner/foreground_app_detector.cc:101 | the string built from a returned buffer is its longest NUL-free prefix |
| LinuxDetector.Construct | dailio/linux/runner/foreground_app_detector.cc:131-147 | the constructor picks X11 exactly when the display opened, None otherwise, and never Wayland; every constructed selector is Valid |
| LinuxDetector.WaylandAvailable | dailio/linux/runner/foreground_app_detector.cc:120-123 | the Wayland stub is never available |
| LinuxDetector.IsSupported | dailio/linux/runner/foreground_app_detector.cc:151-153 | supported exactly when X11 or Wayland was bound; on a constructed selector, exactly when the display connection exists |
| LinuxDetector.ConstructedSelector | dailio/linux/runner/foreground_app_detector.h:26-32 | starting from the None default, a constructed selector is supported exactly when the display opened, and reports "X11" or "None" accordingly |
| LinuxDetector.GetDetectorInfo | dailio/linux/runner/foreground_app_detector.cc:166-175 | the diagnostics name is one of "X11", "Wayland", "None", and it is "None" exactly when the selector is unsupported (IsSupported, cc:151-153) |
| LinuxDetector.DetectorInfoInjective | dailio/linux/runner/foreground_app_detector.cc:166-175 | the diagnostics name identifies the chosen backend |
| LinuxDetector.GetForegroundAppName | dailio/linux/runner/foreground_app_detector.cc:155-164 | an unsupported or Wayland selector answers ""; on a constructed selector the answer is the X11 strategy's answer |
| Text.LastIndexOf | dailio/windows/runner/flutter_window.cpp:144 | the index found holds the character and no later position does; none is found exactly when the character is absent |
| WindowsRunner.FileName | dailio/windows/runner/flutter_window.cpp:143-146 | the file name is the longest backslash-free suffix of the path: it contains no `\`, is preceded by a `\` when the path has one, and is the whole path otherwise |
| WindowsRunner.FileNameOfJoin | dailio/windows/runner/flutter_window.cpp:143-146 | the file name of `dir\file` is `file` for any backslash-free `file` |
| WindowsRunner.LastDotOfExe | dailio/windows/runner/flutter_window.cpp:149-150 | in a name ending in ".exe" the last dot is the one that starts that suffix |
| WindowsRunner.StripExe | dailio/windows/runner/flutter_window.cpp:149-152 | the extension test on the text from the last dot amounts to "ends in .exe": such a name loses exactly that suffix, any other name is unchanged |
| WindowsRunner.StripExeExamples | dailio/windows/runner/flutter_window.cpp:149-152 | `a.b.exe` becomes `a.b`; `a.exe.bak` and `notepad` are unchanged |
| WindowsRunner.StripExeNotIdempotent | dailio/windows/runner/flutter_window.cpp:149-152 | stripping twice differs from stripping once on `a.exe.exe` |
| WindowsRunner.StripExeFixedPoint | dailio/windows/runner/flutter_window.cpp:149-152 | a name without the suffix passes through, and stripping is stable exactly when the stripped name no longer ends in ".exe" |
| WindowsRunner.AppName | dailio/windows/runner/flutter_window.cpp:143-152 | the reported name contains no `\` and is the file name with a trailing ".exe" removed |
| WindowsRunner.AppNameStripsExe | dailio/windows/runner/flutter_window.cpp:143-152 | `C:\Apps\Sub\MyApp.exe` is reported as `MyApp` |
| WindowsRunner.AppNameKeepsUpperCaseExe | dailio/windows/runner/flutter_window.cpp:150 | `C:\Apps\Sub\MyApp.EXE` is reported as `MyApp.EXE`, because the comparison is case-sensitive |
| WindowsRunner.ImageName | dailio/windows/runner/flutter_window.cpp:136-139 | the image-name query succeeds exactly when the OS has a path shorter than MAX_PATH (260), and then returns that path |
| WindowsRunner.GetForegroundAppName | dailio/windows/runner/flutter_window.cpp:115-164 | NO_WINDOW iff no foreground window; NO_PROCESS iff a window but OpenProcess fails; GET_NAME_FAILED iff opened but the image name fails; each error carries its fixed message ("Could not get foreground window", "Could not open process", "Could not get process name") and null details; success iff all three stages succeed, with the reduced image name; a handle is opened only after OpenProcess succeeds and is then closed exactly once on both outcomes |
| Text.NatToString | dailio/windows/runner/flutter_window.cpp:184-186 | decimal rendering is non-empty, all digits, and starts with 0 only for zero |
| Text.ParseNatToString | dailio/windows/runner/flutter_window.cpp:184-186 | reading the decimal rendering back gives the number |
| WindowsRunner.ParseVersionString | dailio/windows/runner/flutter_window.cpp:183-187 | the version string `major.minor.build` splits back into exactly the three reported components |
| WindowsRunner.VersionString | dailio/windows/runner/flutter_window.cpp:184-186 | the version string has exactly two dots, separating the decimal renderings of major, minor and build |
| WindowsRunner.GetPlatformInfo | dailio/windows/runner/flutter_window.cpp:166-191 | the descriptor always holds the five fixed keys with their fixed values; "version" is present exactly when the version query succeeded; its text is exactly the three decimal renderings joined by dots, and it reads back as that version |
| WindowsRunner.HandleMethodCall | dailio/windows/runner/flutter_window.cpp:92-113 | NotImplemented exactly for names outside the five methods; "test" gives "success", checkPermissions true, requestPermissions false, and the other two delegate |
| WindowsRunner.PermissionAnswersAgree | dailio/windows/runner/flutter_window.cpp:100-105 | checkPermissions answers what the descriptor's hasPermissions says (true), the descriptor requires no permission, requestPermissions answers false, and the foreground query has no permission error among its codes |
| AndroidActivity.ScanSelectsMostRecent | dailio/android/app/src/main/kotlin/com/example/dailio/MainActivity.kt:51-64 | the loop selects a package exactly when some MOVE_TO_FOREGROUND event has a time stamp above 0; the selected event has the largest time stamp among those, and no earlier such event has the same time stamp |
| AndroidActivity.Step | dailio/android/app/src/main/kotlin/com/example/dailio/MainActivity.kt:59-63 | one loop pass never lowers the time stamp held; only a move-to-foreground event can replace the package held, with its own time stamp; a move to the foreground strictly newer than the one held always replaces it, and only a strictly newer one does: an event with an equal or older time stamp leaves the state unchanged |
| AndroidActivity.Scan | dailio/android/app/src/main/kotlin/com/example/dailio/MainActivity.kt:51-64 | after the loop a package is held exactly when the time stamp held is above 0, and it belongs to a qualifying event with that time stamp |
| AndroidActivity.MostRecentUnique | dailio/android/app/src/main/kotlin/com/example/dailio/MainActivity.kt:58-63 | the event characterised that way is unique |
| AndroidActivity.FirstOfEqualTimesWins | dailio/android/app/src/main/kotlin/com/example/dailio/MainActivity.kt:59-60 | of two foreground moves at the same instant, the first is reported |
| AndroidActivity.AppName | dailio/android/app/src/main/kotlin/com/example/dailio/MainActivity.kt:78-87 | a known package is reported by its label, an unknown one by its package name |
| AndroidActivity.AppNameLocal | dailio/android/app/src/main/kotlin/com/example/dailio/MainActivity.kt:78-87 | the name reported for a package depends only on that package's own entry in the label table |
| AndroidActivity.GetForegroundApp | dailio/android/app/src/main/kotlin/com/example/dailio/MainActivity.kt:37-71 | without usage access the reply is NO_PERMISSIONS and no events are queried; with it exactly [now-10000, now] is queried, the reply is a success iff some qualifying event exists and NO_APP otherwise; a success names the most recent qualifying event's package, by label when it has one |
| AndroidActivity.RequestPermissions | dailio/android/app/src/main/kotlin/com/example/dailio/MainActivity.kt:116-126 | settings are opened exactly when permission is missing, and the answer equals whether they were opened |
| AndroidActivity.GetPlatformInfo | dailio/android/app/src/main/kotlin/com/example/dailio/MainActivity.kt:132-142 | six fixed keys; the version is `RELEASE (API n)`; hasPermissions is the permission check; requiresPermissions is true |
| AndroidActivity.HandleMethodCall | dailio/android/app/src/main/kotlin/com/example/dailio/MainActivity.kt:25-34 | NotImplemented exactly for names outside the five methods; "test" gives "success"; checkPermissions answers the permission check; requestPermissions answers whether settings were opened |
| AndroidActivity.PermissionAnswersAgree | dailio/android/app/src/main/kotlin/com/example/dailio/MainActivity.kt:26-29 | getForegroundApp is refused with NO_PERMISSIONS exactly when checkPermissions answers false; checkPermissions equals the descriptor's hasPermissions; requestPermissions answers true exactly then |
| MacDelegate.GetForegroundAppName | dailio/macos/Runner/AppDelegate.swift:53-74 | untrusted gives NO_PERMISSIONS without consulting the workspace; trusted with no frontmost app gives NO_APP; otherwise the reply is exactly the localized name, with nil sent as null |
| MacDelegate.RequestPermissions | dailio/macos/Runner/AppDelegate.swift:81-102 | a trusted process is not prompted and gets false; an untrusted one is prompted; settings open exactly when untrusted and the prompt returned false; the answer equals whether settings were opened |
| MacDelegate.GetPlatformInfo | dailio/macos/Runner/AppDelegate.swift:104-114 | six fixed keys; requiresPermissions is always true and hasPermissions is the trust check |
| MacDelegate.HandleMethodCall | dailio/macos/Runner/AppDelegate.swift:36-51 | NotImplemented exactly for names outside the five methods; "test" gives "success"; checkPermissions answers the trust check |
| MacDelegate.PermissionAnswersAgree | dailio/macos/Runner/AppDelegate.swift:37-43 | getForegroundApp is refused with NO_PERMISSIONS exactly when checkPermissions answers false; checkPermissions equals the descriptor's hasPermissions; requestPermissions answers true exactly when untrusted and the prompt returned false |

## Left out

- Flutter plumbing is not modelled: window lifecycle, message pump, plugin registration and channel set-up (`OnCreate`, `OnDestroy`, `MessageHandler`, `SetupMethodChannel`, `configureFlutterEngine`, `setupMethodChannel`). None of it has behaviour that can be stated.
- Raw Xlib, Win32, Android and AppKit calls are not modelled. Their answers are inputs: the `XServer`, `Win32`, `Device` and `MacOs` records.
- `GetWindowThreadProcessId` and the process id are not modelled. Only whether `OpenProcess` succeeds matters.
- Memory release (`XFree`), `XCloseDisplay` and destructors are not modelled. Only the Windows process handle is tracked.
- `WideCharToMultiByte` is not modelled. A Windows path or name is a sequence of UTF-16 code units, one `char` each, so MAX_PATH bounds code units; the name returned is that sequence before its UTF-8 conversion, and the conversion's own failure case is ignored.
- Catch-all exception handlers are not modelled: `std::exception` with `std::cerr` logging on Linux, and DETECTION_FAILED and REQUEST_FAILED on Android. These are I/O and crash paths with no decision logic.
- The Android permission check (`unsafeCheckOpNoThrow` / `checkOpNoThrow` by SDK level) is an input boolean. It is a foreign call.
- Real Wayland detection is not modelled. The source has only a stub that is never available.
- The clock and the settings intents are not modelled. `now` is an input, and opening settings appears as a boolean in the result.
- X11Detector.Resolve: a `_NET_WM_NAME` stored with a type other than UTF8_STRING counts as absent. The Xlib reply for a type mismatch is not modelled.
- X11Detector.WindowTree: one screen with a single root. The root is taken as the one every XQueryTree reply reports.
- WindowsRunner.OsVersion: the DWORD components are unbounded naturals. Their decimal text does not depend on the width.
- AndroidActivity.Event: time stamps are unbounded integers. A Kotlin `Long` overflow in `now - 10000` is not modelled.
