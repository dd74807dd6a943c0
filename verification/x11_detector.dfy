/** The X11 strategy of the Linux runner: ask the server for the input focus,
    climb to the top-level window, then name it from WM_CLASS, WM_NAME or
    _NET_WM_NAME, in that order. Every server reply is part of the `XServer`
    value handed in; the requests the strategy makes are returned as a log so
    that what is asked, and what is never asked, can be stated. */
module X11Detector {
  import opened Wrappers
  import Text

  /** An X resource id. */
  type Window = nat

  /** `None` of X.h: no window. */
  const NoWindow: Window := 0

  /** `PointerRoot` of X.h: the focus follows the pointer, no window holds it. */
  const PointerRoot: Window := 1

  /** The hierarchy as XQueryTree reports it: the root of the screen and the
      parent of every window that exists. XQueryTree fails on a window that is
      not a key. The root itself is a key whose parent is NoWindow, the parent
      XQueryTree reports for a root window. */
  datatype WindowTree = WindowTree(root: Window, parent: map<Window, Window>)

  /** The walk stops at `w`: either XQueryTree fails on it, or its parent is the root. */
  predicate Stops(t: WindowTree, w: Window) {
    w !in t.parent || t.parent[w] == t.root
  }

  /** The X server keeps its windows in a finite tree. `rank` witnesses that:
      it strictly decreases from a window to its parent along every step the
      walk can take. */
  ghost predicate Ranked(t: WindowTree, rank: map<Window, nat>) {
    forall w :: w in t.parent && t.parent[w] != t.root ==>
      w in rank && (t.parent[w] in t.parent ==> t.parent[w] in rank && rank[t.parent[w]] < rank[w])
  }

  /** The number of steps the walk may still take from `w`. */
  ghost function Height(t: WindowTree, w: Window, rank: map<Window, nat>): nat {
    if w in t.parent && w in rank then rank[w] + 1 else 0
  }

  /** `p` is a walk up the hierarchy: each window but the last has a parent
      other than the root and the next window is that parent; the walk stops
      at the last one. */
  ghost predicate IsWalk(t: WindowTree, p: seq<Window>) {
    && |p| >= 1
    && Stops(t, p[|p| - 1])
    && forall i :: 0 <= i < |p| - 1 ==>
         p[i] in t.parent && t.parent[p[i]] != t.root && t.parent[p[i]] == p[i + 1]
  }

  /** The windows XQueryTree is asked about, starting at the focus window
      (foreground_app_detector.cc:46-62). */
  function Path(t: WindowTree, w: Window, ghost rank: map<Window, nat>): (p: seq<Window>)
    requires Ranked(t, rank)
    ensures |p| >= 1 && p[0] == w && IsWalk(t, p)
    ensures |p| <= Height(t, w, rank) + 1
    decreases Height(t, w, rank)
  {
    if Stops(t, w) then [w]
    else
      var rest := Path(t, t.parent[w], rank);
      assert forall i :: 1 <= i < |rest| ==> ([w] + rest)[i] == rest[i - 1];
      [w] + rest
  }

  /** Two walks from the same window are the same walk. */
  lemma {:induction false} WalkUnique(t: WindowTree, p: seq<Window>, q: seq<Window>)
    requires IsWalk(t, p) && IsWalk(t, q) && p[0] == q[0]
    ensures p == q
  {
    if |p| > 1 && |q| > 1 {
      assert p[1] == t.parent[p[0]] == q[1];
      WalkTail(t, p);
      WalkTail(t, q);
      WalkUnique(t, p[1..], q[1..]);
      assert p == [p[0]] + p[1..] && q == [q[0]] + q[1..];
    }
  }

  /** Dropping the first window of a walk that climbs leaves a walk. */
  lemma WalkTail(t: WindowTree, p: seq<Window>)
    requires IsWalk(t, p) && |p| > 1
    ensures IsWalk(t, p[1..])
  {
    var tail := p[1..];
    assert forall i :: 0 <= i < |tail| ==> tail[i] == p[i + 1];
  }

  /** The window the walk ends at: a top-level window (its parent is the root),
      or the last window reached before an XQueryTree failure. */
  function TopLevel(t: WindowTree, w: Window, ghost rank: map<Window, nat>): (top: Window)
    requires Ranked(t, rank)
    // The walk stops there: XQueryTree fails on it, or its parent is the root.
    ensures Stops(t, top)
    // It is the last window of the one walk that starts at `w`.
    ensures forall q :: IsWalk(t, q) && q[0] == w ==> top == q[|q| - 1]
  {
    var p := Path(t, w, rank);
    assert forall q :: IsWalk(t, q) && q[0] == w ==> q == p by {
      forall q | IsWalk(t, q) && q[0] == w
        ensures q == p
      {
        WalkUnique(t, q, p);
      }
    }
    p[|p| - 1]
  }

  /** A focus on the root window itself is not rejected: it is neither None
      nor PointerRoot, so the walk moves on to the root's parent, NoWindow,
      asks XQueryTree about it, and names NoWindow. */
  lemma FocusOnRootWalksToNoWindow(d: Detector, x: XServer, rank: map<Window, nat>)
    requires Ranked(x.tree, rank)
    requires d.connected && x.focus == x.tree.root
    requires x.tree.root != NoWindow && x.tree.root != PointerRoot
    requires x.tree.root in x.tree.parent && x.tree.parent[x.tree.root] == NoWindow
    requires NoWindow !in x.tree.parent
    ensures Path(x.tree, x.tree.root, rank) == [x.tree.root, NoWindow]
    ensures TopLevel(x.tree, x.tree.root, rank) == NoWindow
    ensures var a := GetForegroundAppName(d, x, rank);
      |a.requests| >= 3
      && a.requests[..3] == [GetInputFocus, QueryTree(x.tree.root), QueryTree(NoWindow)]
      && a.requests[3..] == Resolve(x, NoWindow).requests
      && a.name == Resolve(x, NoWindow).name
  {
    assert Path(x.tree, NoWindow, rank) == [NoWindow];
  }

  /** The loop of foreground_app_detector.cc:46-62 as written: query, stop on
      failure, stop when the parent is the root, otherwise climb. `queries`
      counts the XQueryTree calls. */
  method WalkToTopLevel(t: WindowTree, focus: Window, ghost rank: map<Window, nat>)
    returns (current: Window, queries: nat)
    requires Ranked(t, rank)
    ensures Stops(t, current)
    ensures IsWalk(t, Path(t, focus, rank)) && current == TopLevel(t, focus, rank)
    ensures queries == |Path(t, focus, rank)|
  {
    ghost var whole := Path(t, focus, rank);
    current := focus;
    queries := 0;
    while true
      invariant queries < |whole| && whole[queries..] == Path(t, current, rank)
      decreases Height(t, current, rank)
    {
      ghost var here := Path(t, current, rank);
      queries := queries + 1;
      if current !in t.parent {
        break;  // XQueryTree failed
      }
      var parent := t.parent[current];
      if parent == t.root {
        break;
      }
      current := parent;
      assert here[1..] == Path(t, current, rank);
    }
  }

  /** The two pointers XGetClassHint fills; None stands for a null pointer. */
  datatype ClassHint = ClassHint(resName: Option<string>, resClass: Option<string>)

  /** Everything the server answers during one query. A window missing from a
      property map is one for which the corresponding call fails (XGetClassHint
      returns 0, XFetchName returns 0 or a null name, XGetWindowProperty does
      not return Success with a buffer). `netWmNames` holds the stored
      UTF8_STRING value of _NET_WM_NAME in full. Text from the server is a
      byte string: each `char` of these strings stands for one byte, so the
      four bytes of a 32-bit unit are four `char`s and a NUL byte is '\0'. */
  datatype XServer = XServer(
    focus: Window,
    tree: WindowTree,
    classHints: map<Window, ClassHint>,
    wmNames: map<Window, string>,
    netWmNames: map<Window, string>)

  /** The arguments of an XGetWindowProperty call: property atom, offset and
      length in 32-bit units, delete flag, requested type atom. */
  datatype PropertyRequest = PropertyRequest(
    property: string, longOffset: nat, longLength: nat, delete: bool, reqType: string)

  /** The one property request the strategy makes (foreground_app_detector.cc:90-99). */
  const NetWmNameRequest := PropertyRequest("_NET_WM_NAME", 0, 1024, false, "UTF8_STRING")

  /** The server requests the strategy issues, in order. */
  datatype XRequest =
    | GetInputFocus
    | QueryTree(window: Window)
    | GetClassHint(window: Window)
    | FetchName(window: Window)
    | InternAtom(name: string)
    | GetWindowProperty(window: Window, request: PropertyRequest)

  /** The name returned and the requests made to obtain it. */
  datatype Answer = Answer(name: string, requests: seq<XRequest>)

  /** The strategy object: whether XOpenDisplay gave a connection. */
  datatype Detector = Detector(connected: bool)

  function Open(displayOpened: bool): (d: Detector)
    ensures IsAvailable(d) == displayOpened
  {
    Detector(displayOpened)
  }

  predicate IsAvailable(d: Detector) {
    d.connected
  }

  /** The part of an 8-bit property the server hands back for `request`:
      at most four bytes per requested 32-bit unit, counted from the offset. */
  function Delivered(value: string, request: PropertyRequest): (data: string)
    ensures 4 * request.longOffset > |value| ==> data == ""
    ensures 4 * request.longOffset <= |value| ==> data <= value[4 * request.longOffset..]
    ensures 4 * request.longOffset <= |value| ==>
      |data| == if |value| - 4 * request.longOffset < 4 * request.longLength
                then |value| - 4 * request.longOffset
                else 4 * request.longLength
  {
    var start := 4 * request.longOffset;
    if start > |value| then ""
    else if |value| - start <= 4 * request.longLength then value[start..]
    else value[start..start + 4 * request.longLength]
  }

  /** The application class of `w`, empty when XGetClassHint fails or leaves res_class null. */
  function ClassName(x: XServer, w: Window): (name: string)
    ensures '\0' !in name
    ensures w !in x.classHints || x.classHints[w].resClass.None? ==> name == ""
    // Otherwise it is the res_class text up to its terminating NUL.
    ensures w in x.classHints && x.classHints[w].resClass.Some? ==>
      var resClass := x.classHints[w].resClass.value;
      name <= resClass && (|name| < |resClass| ==> resClass[|name|] == '\0')
  {
    if w in x.classHints && x.classHints[w].resClass.Some? then
      Text.CString(x.classHints[w].resClass.value)
    else ""
  }

  /** The requests made while naming `w` when every source is tried. */
  function AllNameRequests(w: Window): seq<XRequest> {
    [GetClassHint(w), FetchName(w), InternAtom("_NET_WM_NAME"), InternAtom("UTF8_STRING"),
     GetWindowProperty(w, NetWmNameRequest)]
  }

  /** Names the top-level window `w` (foreground_app_detector.cc:64-110). */
  function Resolve(x: XServer, w: Window): (a: Answer)
    // A non-empty res_class wins; no other source is read.
    ensures ClassName(x, w) != "" ==> a == Answer(ClassName(x, w), [GetClassHint(w)])
    // Otherwise a successful XFetchName is the answer even when the name is empty.
    ensures ClassName(x, w) == "" && w in x.wmNames ==>
      a == Answer(Text.CString(x.wmNames[w]), [GetClassHint(w), FetchName(w)])
    // _NET_WM_NAME is requested only when both earlier sources failed, and always the same way.
    ensures forall v, req :: GetWindowProperty(v, req) in a.requests ==>
      v == w && req == NetWmNameRequest && ClassName(x, w) == "" && w !in x.wmNames
    // When both fail, both atoms are interned and _NET_WM_NAME is requested.
    ensures ClassName(x, w) == "" && w !in x.wmNames ==> a.requests == AllNameRequests(w)
    ensures ClassName(x, w) == "" && w !in x.wmNames && w in x.netWmNames ==>
      a.name == Text.CString(Delivered(x.netWmNames[w], NetWmNameRequest))
    // Every source failing gives the empty name.
    ensures ClassName(x, w) == "" && w !in x.wmNames && w !in x.netWmNames ==> a.name == ""
    ensures '\0' !in a.name
  {
    var className := ClassName(x, w);
    if className != "" then Answer(className, [GetClassHint(w)])
    else if w in x.wmNames then Answer(Text.CString(x.wmNames[w]), [GetClassHint(w), FetchName(w)])
    else if w in x.netWmNames then
      Answer(Text.CString(Delivered(x.netWmNames[w], NetWmNameRequest)), AllNameRequests(w))
    else Answer("", AllNameRequests(w))
  }

  /** X11ForegroundDetector::GetForegroundAppName (foreground_app_detector.cc:27-111). */
  function GetForegroundAppName(d: Detector, x: XServer, ghost rank: map<Window, nat>): (a: Answer)
    requires Ranked(x.tree, rank)
    // No connection: nothing is asked and the answer is empty.
    ensures !d.connected ==> a == Answer("", [])
    // No real focus window: only the focus is asked for.
    ensures d.connected && (x.focus == NoWindow || x.focus == PointerRoot) ==>
      a == Answer("", [GetInputFocus])
    // A non-empty answer needs a connection and a real focus window.
    ensures a.name != "" ==> d.connected && x.focus != NoWindow && x.focus != PointerRoot
    // Otherwise the tree is queried along the walk and the window it ends at is named.
    ensures d.connected && x.focus != NoWindow && x.focus != PointerRoot ==>
      var path := Path(x.tree, x.focus, rank);
      && |a.requests| >= 1 + |path|
      && a.requests[..1 + |path|] == [GetInputFocus] + seq(|path|, i requires 0 <= i < |path| => QueryTree(path[i]))
      && a.requests[1 + |path|..] == Resolve(x, TopLevel(x.tree, x.focus, rank)).requests
      && a.name == Resolve(x, TopLevel(x.tree, x.focus, rank)).name
  {
    if !d.connected then Answer("", [])
    else if x.focus == NoWindow || x.focus == PointerRoot then Answer("", [GetInputFocus])
    else
      var path := Path(x.tree, x.focus, rank);
      var named := Resolve(x, path[|path| - 1]);
      var walk := [GetInputFocus] + seq(|path|, i requires 0 <= i < |path| => QueryTree(path[i]));
      assert (walk + named.requests)[..1 + |path|] == walk;
      Answer(named.name, walk + named.requests)
  }

  /** The answer depends on WM_NAME and _NET_WM_NAME only when res_class gives nothing. */
  lemma ClassHintDecides(x: XServer, y: XServer, d: Detector, rank: map<Window, nat>)
    requires Ranked(x.tree, rank)
    requires y == x.(wmNames := y.wmNames, netWmNames := y.netWmNames)
    requires d.connected && x.focus != NoWindow && x.focus != PointerRoot
    requires ClassName(x, TopLevel(x.tree, x.focus, rank)) != ""
    ensures GetForegroundAppName(d, x, rank) == GetForegroundAppName(d, y, rank)
  {
  }
}
