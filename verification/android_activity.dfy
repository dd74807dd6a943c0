/** The method-channel handler of the Android activity: dispatch, the scan of
    recent usage events for the latest move to the foreground, the label
    lookup with its package-name fallback, and the permission decisions.
    The OS answers (permission state, clock, usage-event query, installed
    labels, build version) are fields of `Device`. */
module AndroidActivity {
  import opened Wrappers
  import opened Channel
  import Text

  /** UsageEvents.Event.MOVE_TO_FOREGROUND. */
  const MoveToForeground: int := 1

  /** How far back, in milliseconds, usage events are queried. */
  const QueryWindowMillis: int := 10000

  /** One usage event as the event iterator fills it in. */
  datatype Event = Event(eventType: int, timeStamp: int, packageName: string)

  /** The two loop variables of the scan: the latest accepted time stamp and its package. */
  datatype Latest = Latest(lastEventTime: int, lastAppPackage: Option<string>)

  /** One pass of the loop body (MainActivity.kt:59-63): accept a
      move-to-foreground event strictly newer than the one held. */
  function Step(acc: Latest, e: Event): (next: Latest)
    // The time stamp held never decreases, and only `e` can replace the package held.
    ensures next.lastEventTime >= acc.lastEventTime
    ensures next.lastAppPackage == acc.lastAppPackage || next.lastAppPackage == Some(e.packageName)
    ensures next != acc ==> e.eventType == MoveToForeground && next.lastEventTime == e.timeStamp
    // A move to the foreground is taken exactly when it is strictly newer;
    // one no newer than the time stamp held leaves the state unchanged.
    ensures next != acc <==> e.eventType == MoveToForeground && e.timeStamp > acc.lastEventTime
    ensures e.eventType == MoveToForeground && e.timeStamp > acc.lastEventTime ==>
      next == Latest(e.timeStamp, Some(e.packageName))
  {
    if e.eventType == MoveToForeground && e.timeStamp > acc.lastEventTime then
      Latest(e.timeStamp, Some(e.packageName))
    else acc
  }

  /** The loop over the queried events, first to last, from (0, null) (MainActivity.kt:51-64). */
  function Scan(events: seq<Event>): (latest: Latest)
    // A package is held exactly when the time stamp held has moved above 0,
    // and it is the package of a move to the foreground carrying that time stamp.
    ensures latest.lastEventTime >= 0
    ensures latest.lastAppPackage.Some? <==> latest.lastEventTime > 0
    ensures latest.lastAppPackage.Some? ==>
      exists i :: 0 <= i < |events| && Candidate(events[i])
        && events[i].packageName == latest.lastAppPackage.value
        && events[i].timeStamp == latest.lastEventTime
  {
    if |events| == 0 then Latest(0, None)
    else
      var front := events[..|events| - 1];
      assert forall j :: 0 <= j < |front| ==> events[j] == front[j];
      Step(Scan(front), events[|events| - 1])
  }

  /** An event the scan can accept: a move to the foreground after time 0. */
  predicate Candidate(e: Event) {
    e.eventType == MoveToForeground && e.timeStamp > 0
  }

  predicate NoCandidate(events: seq<Event>) {
    forall j :: 0 <= j < |events| ==> !Candidate(events[j])
  }

  /** Event `i` is the latest candidate, and the first among candidates with its time stamp. */
  ghost predicate IsMostRecent(events: seq<Event>, i: int) {
    && 0 <= i < |events|
    && Candidate(events[i])
    && (forall j :: 0 <= j < |events| && Candidate(events[j]) ==> events[j].timeStamp <= events[i].timeStamp)
    && (forall j :: 0 <= j < i && Candidate(events[j]) ==> events[j].timeStamp < events[i].timeStamp)
  }

  /** At most one event is the most recent one. */
  lemma MostRecentUnique(events: seq<Event>, i: int, k: int)
    requires IsMostRecent(events, i) && IsMostRecent(events, k)
    ensures i == k
  {
  }

  /** The scan selects the most recent candidate, the earliest one on a tie,
      and selects nothing exactly when there is no candidate. */
  lemma {:induction false} ScanSelectsMostRecent(events: seq<Event>)
    ensures Scan(events).lastAppPackage.None? <==> NoCandidate(events)
    ensures Scan(events).lastAppPackage.None? ==> Scan(events).lastEventTime == 0
    ensures Scan(events).lastAppPackage.Some? ==>
      exists i :: IsMostRecent(events, i)
        && events[i].packageName == Scan(events).lastAppPackage.value
        && events[i].timeStamp == Scan(events).lastEventTime
  {
    if |events| > 0 {
      var front := events[..|events| - 1];
      var e := events[|events| - 1];
      var n := |events| - 1;
      ScanSelectsMostRecent(front);
      var acc := Scan(front);
      assert forall j :: 0 <= j < n ==> events[j] == front[j];
      if e.eventType == MoveToForeground && e.timeStamp > acc.lastEventTime {
        assert Candidate(e);
        if acc.lastAppPackage.Some? {
          var i :| IsMostRecent(front, i) && front[i].timeStamp == acc.lastEventTime;
          assert IsMostRecent(events, n);
        } else {
          assert IsMostRecent(events, n);
        }
      } else if acc.lastAppPackage.Some? {
        var i :| IsMostRecent(front, i)
          && front[i].packageName == acc.lastAppPackage.value
          && front[i].timeStamp == acc.lastEventTime;
        assert IsMostRecent(events, i);
      } else {
        assert !Candidate(e);
      }
    }
  }

  /** getAppName (MainActivity.kt:78-87): the installed label, or the package
      name itself when the package manager reports it not found. `labels`
      maps every package it knows to its label. */
  function AppName(labels: map<string, string>, packageName: string): (name: string)
    ensures packageName in labels ==> name == labels[packageName]
    ensures packageName !in labels ==> name == packageName
  {
    if packageName in labels then labels[packageName] else packageName
  }

  /** Only the package's own entry in the label table matters. */
  lemma AppNameLocal(labels: map<string, string>, packageName: string, other: string)
    requires other != packageName
    ensures AppName(labels - {other}, packageName) == AppName(labels, packageName)
  {
  }

  /** Everything the OS answers during one call. */
  datatype Device = Device(
    hasPermission: bool,
    now: int,
    queryEvents: (int, int) -> seq<Event>,
    labels: map<string, string>,
    release: string,
    sdkInt: nat)

  /** The reply of getForegroundApp and the time range of the usage-event
      query it made, if it made one. */
  datatype ForegroundQuery = ForegroundQuery(reply: Reply, queried: Option<(int, int)>)

  const NoPermissionsError := Error("NO_PERMISSIONS", "Usage access permission required",
    Str("Please grant usage access permission in Settings > Apps > Special access > Usage access"))

  const NoAppError := Error("NO_APP", "Could not detect foreground app", Null)

  /** getForegroundApp (MainActivity.kt:37-76). */
  function GetForegroundApp(d: Device): (q: ForegroundQuery)
    // Without usage access nothing is queried.
    ensures !d.hasPermission ==> q == ForegroundQuery(NoPermissionsError, None)
    // With it, exactly the last ten seconds are queried.
    ensures d.hasPermission ==> q.queried == Some((d.now - QueryWindowMillis, d.now))
    ensures d.hasPermission ==>
      var events := d.queryEvents(d.now - QueryWindowMillis, d.now);
      && (q.reply == NoAppError <==> NoCandidate(events))
      && (q.reply.Success? <==> !NoCandidate(events))
      && (q.reply.Success? ==>
            exists i :: IsMostRecent(events, i) && q.reply.value == Str(AppName(d.labels, events[i].packageName)))
    ensures q.reply.Success? || q.reply == NoAppError || q.reply == NoPermissionsError
  {
    if !d.hasPermission then ForegroundQuery(NoPermissionsError, None)
    else
      var window := (d.now - QueryWindowMillis, d.now);
      var events := d.queryEvents(window.0, window.1);
      var latest := Scan(events);
      ScanSelectsMostRecent(events);
      match latest.lastAppPackage
      case Some(p) => ForegroundQuery(Success(Str(AppName(d.labels, p))), Some(window))
      case None => ForegroundQuery(NoAppError, Some(window))
  }

  /** requestUsageStatsPermission (MainActivity.kt:116-130): the reply and
      whether the usage-access settings screen was started. */
  function RequestPermissions(hasPermission: bool): (r: (Reply, bool))
    ensures r.0 == Success(Bool(r.1))
    ensures r.1 <==> !hasPermission
  {
    if hasPermission then (Success(Bool(false)), false)
    else (Success(Bool(true)), true)
  }

  const PermissionsLocation := "Settings > Apps > Special access > Usage access"

  /** getPlatformInfo (MainActivity.kt:132-142). */
  function GetPlatformInfo(d: Device): (info: map<string, Value>)
    ensures info.Keys == {"platform", "supported", "version", "hasPermissions",
                          "requiresPermissions", "permissionsLocation"}
    ensures info["platform"] == Str("Android") && info["supported"] == Bool(true)
    ensures info["version"] == Str(d.release + " (API " + Text.NatToString(d.sdkInt) + ")")
    ensures info["hasPermissions"] == Bool(d.hasPermission)
    ensures info["requiresPermissions"] == Bool(true)
    ensures info["permissionsLocation"] == Str(PermissionsLocation)
  {
    map[
      "platform" := Str("Android"),
      "supported" := Bool(true),
      "version" := Str(d.release + " (API " + Text.NatToString(d.sdkInt) + ")"),
      "hasPermissions" := Bool(d.hasPermission),
      "requiresPermissions" := Bool(true),
      "permissionsLocation" := Str(PermissionsLocation)]
  }

  /** The method-call handler (MainActivity.kt:25-34). */
  function HandleMethodCall(name: string, d: Device): (r: Reply)
    ensures r.NotImplemented? <==> name !in Methods
    ensures name == TestMethod ==> r == Success(Str("success"))
    ensures name == CheckPermissionsMethod ==> r == Success(Bool(d.hasPermission))
    ensures name == RequestPermissionsMethod ==> r == Success(Bool(!d.hasPermission))
    ensures name == GetForegroundAppMethod ==> r == GetForegroundApp(d).reply
    ensures name == GetPlatformInfoMethod ==> r == Success(Dict(GetPlatformInfo(d)))
  {
    if name == GetForegroundAppMethod then GetForegroundApp(d).reply
    else if name == CheckPermissionsMethod then Success(Bool(d.hasPermission))
    else if name == RequestPermissionsMethod then RequestPermissions(d.hasPermission).0
    else if name == GetPlatformInfoMethod then Success(Dict(GetPlatformInfo(d)))
    else if name == TestMethod then Success(Str("success"))
    else NotImplemented
  }

  /** The permission answers agree: the foreground query is refused for lack
      of permission exactly when checkPermissions answers false, which is
      what the descriptor's "hasPermissions" says; requestPermissions answers
      true exactly then. */
  lemma PermissionAnswersAgree(d: Device)
    ensures HandleMethodCall(GetForegroundAppMethod, d) == NoPermissionsError <==>
      HandleMethodCall(CheckPermissionsMethod, d) == Success(Bool(false))
    ensures HandleMethodCall(CheckPermissionsMethod, d) == Success(GetPlatformInfo(d)["hasPermissions"])
    ensures HandleMethodCall(RequestPermissionsMethod, d) == Success(Bool(true)) <==>
      HandleMethodCall(CheckPermissionsMethod, d) == Success(Bool(false))
    ensures GetPlatformInfo(d)["requiresPermissions"] == Bool(true)
  {
  }

  /** Two moves to the foreground at the same instant: the first one seen is reported. */
  lemma FirstOfEqualTimesWins()
    ensures Scan([Event(MoveToForeground, 5, "a"), Event(MoveToForeground, 5, "b")]).lastAppPackage == Some("a")
  {
    var events := [Event(MoveToForeground, 5, "a"), Event(MoveToForeground, 5, "b")];
    assert events[..1] == [Event(MoveToForeground, 5, "a")];
    assert events[..1][..0] == [];
    assert Scan(events[..1]) == Latest(5, Some("a"));
    assert Scan(events) == Step(Scan(events[..1]), events[1]);
  }
}
