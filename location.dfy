/**
 * The location reporting service: the gate that decides whether a sample is
 * posted and what it carries, the background task callback, the permission
 * requests, and the control of the OS's location updates.
 */
module Location {
  import opened Wrappers
  import opened Js

  const LocationUrl: string := "https://donoxonsi.uz/api/location"

  /** Routine samples are posted from WindowStart o'clock up to, not
      including, WindowEnd o'clock local time. */
  const WindowStart: int := 9
  const WindowEnd: int := 21

  /** `new Date().getHours()` */
  type Hour = h: int | 0 <= h < 24

  predicate InReportingWindow(hour: Hour) {
    WindowStart <= hour < WindowEnd
  }

  /** The battery read: `Math.round(level * 100)`, or a rejection. */
  datatype BatteryRead = Percent(percent: int) | ReadFailed

  /** The JSON body posted: the coordinates (`latitude`, `longitude`,
      `accuracy`, kept opaque as C), `battery_level` and `is_real_time`. */
  datatype Payload<C> = Payload(coords: C, batteryLevel: int, isRealTime: bool)

  datatype LocationPost<C> = LocationPost(url: string, headers: map<string, string>, payload: Payload<C>)

  datatype Skip = NoToken | OutsideWindow

  /** What one call of sendLocationToServer does: drop the sample, or post it. */
  datatype Report<C> = Dropped(reason: Skip) | Posted(post: LocationPost<C>)

  /** sendLocationToServer: a token is required first; a routine sample is
      then posted only inside the reporting window, a real-time one always.
      It resolves in every case: a failed post is swallowed. */
  function SendLocationToServer<C>(coords: C, isRealTime: bool, token: Option<string>,
                                   hour: Hour, battery: BatteryRead): (r: Report<C>)
    ensures r.Posted? <==> TruthyText(token) && (isRealTime || InReportingWindow(hour))
    ensures !TruthyText(token) ==> r == Dropped(NoToken)
    ensures r.Dropped? && r.reason == OutsideWindow ==> !isRealTime && !InReportingWindow(hour)
    ensures r.Posted? ==>
              r.post.url == LocationUrl &&
              r.post.payload.coords == coords &&
              r.post.payload.isRealTime == isRealTime &&
              r.post.payload.batteryLevel == (if battery.Percent? then battery.percent else 0)
    ensures r.Posted? ==>
              "Authorization" in r.post.headers && r.post.headers["Authorization"] == "Bearer " + token.value
  {
    if !TruthyText(token) then Dropped(NoToken)
    else if !isRealTime && (hour < WindowStart || hour >= WindowEnd) then Dropped(OutsideWindow)
    else
      var batteryLevel := if battery.Percent? then battery.percent else 0;
      var headers := map["Content-Type" := "application/json", "Accept" := "application/json",
                         "Authorization" := "Bearer " + token.value];
      Posted(LocationPost(LocationUrl, headers, Payload(coords, batteryLevel, isRealTime)))
  }

  /** A routine sample is posted at 10:00 and dropped at 23:00; a real-time
      one is posted at either hour. */
  lemma WindowExamples<C>(coords: C, token: string, battery: BatteryRead)
    requires token != ""
    ensures SendLocationToServer(coords, false, Some(token), 10, battery).Posted?
    ensures SendLocationToServer(coords, false, Some(token), 23, battery) == Dropped(OutsideWindow)
    ensures SendLocationToServer(coords, true, Some(token), 23, battery).Posted?
  {
  }

  /** Without a token nothing is posted, whatever the hour: the token check
      comes before the window check. */
  lemma TokenCheckedFirst<C>(coords: C, isRealTime: bool, token: Option<string>,
                             hour: Hour, other: Hour, battery: BatteryRead)
    requires !TruthyText(token)
    ensures SendLocationToServer(coords, isRealTime, token, hour, battery)
         == SendLocationToServer(coords, isRealTime, token, other, battery)
  {
  }

  /** What the OS hands the background task. */
  datatype TaskEvent<C> = TaskEvent(error: bool, locations: Option<seq<C>>)

  /** The background task callback: nothing on an error, on missing data or
      on no locations; otherwise the first location only, as a routine sample. */
  function OnBackgroundTask<C>(event: TaskEvent<C>, token: Option<string>, hour: Hour,
                               battery: BatteryRead): (r: Option<Report<C>>)
    ensures r.Some? <==> !event.error && event.locations.Some? && |event.locations.value| > 0
    ensures r.Some? ==> r.value == SendLocationToServer(event.locations.value[0], false, token, hour, battery)
    ensures r.Some? && r.value.Posted? ==> !r.value.post.payload.isRealTime && InReportingWindow(hour)
  {
    if event.error then None
    else match event.locations
      case None => None
      case Some(locations) =>
        if |locations| == 0 then None
        else Some(SendLocationToServer(locations[0], false, token, hour, battery))
  }

  /** The answer to a permission request: "granted", any other status, or a
      rejection. */
  datatype Answer = Granted | NotGranted | Failed

  datatype Prompt = Foreground | Background

  /** The permission requests made, in order, and the verdict. */
  datatype PermissionRun = PermissionRun(prompts: seq<Prompt>, granted: bool)

  /** requestPermissions: foreground first, background only once foreground
      is granted; true exactly when both are granted, false on a rejection. */
  function RequestPermissions(foreground: Answer, background: Answer): (r: PermissionRun)
    ensures r.granted <==> foreground == Granted && background == Granted
    ensures |r.prompts| > 0 && r.prompts[0] == Foreground
    ensures Background in r.prompts <==> foreground == Granted
    ensures forall i :: 0 <= i < |r.prompts| && r.prompts[i] == Background ==> i > 0 && r.prompts[i - 1] == Foreground
  {
    if foreground != Granted then PermissionRun([Foreground], false)
    else PermissionRun([Foreground, Background], background == Granted)
  }

  /** What startBackgroundTracking resolves with, whether the updates run
      afterwards, and whether it called startLocationUpdatesAsync. */
  datatype StartResult = StartResult(ok: bool, started: bool, invoked: bool)

  /** startBackgroundTracking over the OS state: permission, then a defined
      task, then the "updates started" query; updates are started only when
      they are not running yet. A rejection anywhere resolves to false. */
  function StartTracking(started: bool, taskDefined: bool, foreground: Answer, background: Answer,
                         queryFails: bool, startFails: bool): (r: StartResult)
    ensures r.ok ==> RequestPermissions(foreground, background).granted && taskDefined && r.started
    ensures !RequestPermissions(foreground, background).granted || !taskDefined ==> !r.ok && !r.invoked
    ensures r.invoked ==> !started
    ensures started ==> r.started && !r.invoked
    ensures started && RequestPermissions(foreground, background).granted && taskDefined && !queryFails ==> r.ok
    ensures r.started ==> started || r.invoked
    ensures RequestPermissions(foreground, background).granted && taskDefined && !queryFails && !started ==>
      r.invoked && r.ok == !startFails && r.started == !startFails
    ensures queryFails ==> !r.ok && !r.invoked && r.started == started
  {
    var permitted := RequestPermissions(foreground, background).granted;
    if !permitted || !taskDefined || queryFails then StartResult(false, started, false)
    else if started then StartResult(true, true, false)
    else if startFails then StartResult(false, false, true)
    else StartResult(true, true, true)
  }

  /** Calling startBackgroundTracking again once it has succeeded returns
      true without starting the updates a second time. */
  lemma StartIsIdempotent(started: bool, taskDefined: bool, foreground: Answer,
                            background: Answer, startFails: bool, again: bool)
    requires StartTracking(started, taskDefined, foreground, background, false, startFails).ok
    ensures var first := StartTracking(started, taskDefined, foreground, background, false, startFails);
      var second := StartTracking(first.started, taskDefined, foreground, background, false, again);
      second == StartResult(true, true, false)
  {
  }

  /** The background tracking control over the OS's location updates for
      the background task. */
  class BackgroundTracking {
    /** hasStartedLocationUpdatesAsync for the task */
    var started: bool
    /** TaskManager.isTaskDefined for the task */
    const taskDefined: bool
    /** How often startLocationUpdatesAsync has been called. */
    ghost var starts: nat

    constructor (taskDefined: bool, started: bool)
      ensures this.taskDefined == taskDefined && this.started == started && starts == 0
    {
      this.taskDefined := taskDefined;
      this.started := started;
      starts := 0;
    }

    method Start(foreground: Answer, background: Answer, queryFails: bool, startFails: bool)
      returns (ok: bool)
      modifies this
      ensures var r := StartTracking(old(started), taskDefined, foreground, background, queryFails, startFails);
        ok == r.ok && started == r.started && starts == old(starts) + (if r.invoked then 1 else 0)
    {
      var permission := RequestPermissions(foreground, background);
      if !permission.granted || !taskDefined || queryFails {
        return false;
      }
      if started {
        return true;
      }
      starts := starts + 1;
      if startFails {
        return false;
      }
      started := true;
      ok := true;
    }

    /** stopBackgroundTracking: stops the updates only when they run; a
      rejection is swallowed. */
    method Stop(queryFails: bool, stopFails: bool)
      modifies this
      ensures started == (old(started) && (queryFails || stopFails))
      ensures starts == old(starts)
    {
      if !queryFails && started && !stopFails {
        started := false;
      }
    }

    /** isTracking: the OS flag, or false when the query rejects. */
    method IsTracking(queryFails: bool) returns (tracking: bool)
      ensures tracking <==> started && !queryFails
    {
      tracking := !queryFails && started;
    }
  }

  /** What sendRealTimeLocation does: its verdict, the permission requests
      made, and the send it invoked, if any. */
  datatype RealTime<C> = RealTime(ok: bool, prompts: seq<Prompt>, report: Option<Report<C>>)

  /** sendRealTimeLocation: with both permissions and a position read it
      sends the position as a real-time sample and resolves true, whether or
      not the send was dropped; otherwise it resolves false and sends nothing. */
  function SendRealTimeLocation<C>(foreground: Answer, background: Answer, position: Option<C>,
                                   token: Option<string>, hour: Hour, battery: BatteryRead): (r: RealTime<C>)
    ensures r.ok <==> RequestPermissions(foreground, background).granted && position.Some?
    ensures r.report.Some? <==> r.ok
    ensures r.prompts == RequestPermissions(foreground, background).prompts
    ensures r.ok ==> r.report.value == SendLocationToServer(position.value, true, token, hour, battery)
    ensures r.ok && !TruthyText(token) ==> r.report.value == Dropped(NoToken)
    ensures r.ok && TruthyText(token) ==> r.report.value.Posted? && r.report.value.post.payload.isRealTime
  {
    var permission := RequestPermissions(foreground, background);
    if !permission.granted || position.None? then RealTime(false, permission.prompts, None)
    else RealTime(true, permission.prompts, Some(SendLocationToServer(position.value, true, token, hour, battery)))
  }
}
