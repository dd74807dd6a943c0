/** ForegroundAppDetector of the Linux runner: a backend chosen once, when
    the detector is built, and every later question answered from that choice.
    The detector is an immutable value, so no query can change the backend. */
module LinuxDetector {
  import X11Detector

  /** The three backends the selector can record. */
  datatype DetectorType = None | X11 | Wayland

  /** The value the backend field holds before the constructor body runs
      (the default member initializer). */
  const DefaultType: DetectorType := None

  /** The selector: the chosen backend and the X11 strategy it built first. */
  datatype ForegroundAppDetector = ForegroundAppDetector(
    detectorType: DetectorType,
    x11: X11Detector.Detector)

  /** WaylandForegroundDetector::IsAvailable: the protocol is not implemented. */
  predicate WaylandAvailable(): (available: bool)
    ensures !available
  {
    false
  }

  /** What every constructed selector satisfies: X11 is chosen exactly when
      the display connection exists, and Wayland never is. */
  predicate Valid(d: ForegroundAppDetector) {
    && (d.detectorType == X11 <==> X11Detector.IsAvailable(d.x11))
    && d.detectorType != Wayland
  }

  /** ForegroundAppDetector::ForegroundAppDetector: try X11, then Wayland,
      else keep None. `displayOpened` is whether XOpenDisplay succeeded. */
  function Construct(displayOpened: bool): (d: ForegroundAppDetector)
    ensures X11Detector.IsAvailable(d.x11) == displayOpened
    ensures d.detectorType == X11 <==> displayOpened
    ensures d.detectorType == None <==> !displayOpened
    ensures Valid(d)
  {
    var x11 := X11Detector.Open(displayOpened);
    if X11Detector.IsAvailable(x11) then ForegroundAppDetector(X11, x11)
    else if WaylandAvailable() then ForegroundAppDetector(Wayland, x11)
    else ForegroundAppDetector(DefaultType, x11)
  }

  /** ForegroundAppDetector::IsSupported: a real backend was bound. */
  predicate IsSupported(d: ForegroundAppDetector): (supported: bool)
    ensures supported <==> d.detectorType in {X11, Wayland}
    // On a constructed selector this is whether the display connection exists.
    ensures Valid(d) ==> (supported <==> X11Detector.IsAvailable(d.x11))
  {
    d.detectorType != None
  }

  /** ForegroundAppDetector::GetDetectorInfo. */
  function GetDetectorInfo(d: ForegroundAppDetector): (info: string)
    ensures info in {"X11", "Wayland", "None"}
    ensures IsSupported(d) <==> info != "None"
  {
    match d.detectorType
    case X11 => "X11"
    case Wayland => "Wayland"
    case None => "None"
  }

  /** ForegroundAppDetector::GetForegroundAppName: hand the query to the chosen backend. */
  function GetForegroundAppName(d: ForegroundAppDetector, x: X11Detector.XServer,
                                ghost rank: map<X11Detector.Window, nat>): (name: string)
    requires X11Detector.Ranked(x.tree, rank)
    ensures !IsSupported(d) ==> name == ""
    ensures d.detectorType == Wayland ==> name == ""
    // On a constructed selector the answer is the X11 strategy's answer, whatever was chosen.
    ensures Valid(d) ==> name == X11Detector.GetForegroundAppName(d.x11, x, rank).name
  {
    match d.detectorType
    case X11 => X11Detector.GetForegroundAppName(d.x11, x, rank).name
    case Wayland => ""
    case None => ""
  }

  /** The backend reported for diagnostics identifies the backend chosen. */
  lemma DetectorInfoInjective(d: ForegroundAppDetector, e: ForegroundAppDetector)
    requires GetDetectorInfo(d) == GetDetectorInfo(e)
    ensures d.detectorType == e.detectorType
  {
  }

  /** After construction: supported exactly when the display opened, and the
      diagnostics name says which. */
  lemma ConstructedSelector(displayOpened: bool)
    ensures IsSupported(Construct(displayOpened)) <==> displayOpened
    ensures GetDetectorInfo(Construct(displayOpened)) == (if displayOpened then "X11" else "None")
  {
  }
}
