/**
 * The host-facing entry points (VPNHelper): immediate or scheduled start,
 * hour/minute schedules for today, stop, and the status-string mapping.
 *
 * The helper's static fields are modelled as the fields of one object. Calls
 * into the tunnel library and the platform (starting the tunnel, asking for
 * the VPN permission, stopping the tunnel thread, resetting the default
 * status, notifying the listener) are recorded as events.
 */
module Helper {
  import opened Wrappers
  import opened Schedules
  import opened Service
  import opened Facade

  const HourMillis := 3_600_000
  const MinuteMillis := 60_000

  // ---------------------------------------------------------------------------
  // Hour and minute of today as instants

  /** Local midnight of the day containing `now`, in a zone `zoneOffset` ms ahead of UTC. */
  function StartOfLocalDay(now: int, zoneOffset: int): int
  {
    ((now + zoneOffset) / DayMillis) * DayMillis - zoneOffset
  }

  /**
   * The instant a Calendar for `now` shows after setting hour and minute and
   * zeroing seconds and milliseconds: a whole local minute, and within the
   * local day of `now` when hour and minute are in range.
   */
  function ClockInstant(now: int, zoneOffset: int, hour: int, minute: int): (t: int)
    ensures (t + zoneOffset) % MinuteMillis == 0
    ensures 0 <= hour < 24 && 0 <= minute < 60 ==>
              StartOfLocalDay(now, zoneOffset) <= t < StartOfLocalDay(now, zoneOffset) + DayMillis
              && (t + zoneOffset) % DayMillis == hour * HourMillis + minute * MinuteMillis
  {
    var q := (now + zoneOffset) / DayMillis;
    assert StartOfLocalDay(now, zoneOffset) + hour * HourMillis + minute * MinuteMillis + zoneOffset
           == (q * 1440 + hour * 60 + minute) * MinuteMillis;
    assert StartOfLocalDay(now, zoneOffset) + hour * HourMillis + minute * MinuteMillis + zoneOffset
           == q * DayMillis + (hour * HourMillis + minute * MinuteMillis);
    StartOfLocalDay(now, zoneOffset) + hour * HourMillis + minute * MinuteMillis
  }

  /**
   * A disconnect instant not after the connect instant moves one day on:
   * the result is the given instant or one day later, later than the connect
   * exactly when the given one is less than a day before it.
   */
  function RolledDisconnect(connectAt: int, disconnectAt: int): (r: int)
    ensures r == disconnectAt || r == disconnectAt + DayMillis
    ensures r > connectAt <==> disconnectAt > connectAt - DayMillis
    ensures disconnectAt > connectAt ==> r == disconnectAt
    ensures disconnectAt <= connectAt ==> r == disconnectAt + DayMillis
  {
    if disconnectAt <= connectAt then disconnectAt + DayMillis else disconnectAt
  }

  /** With in-range hours and minutes the disconnect handed to the scheduler is within a day after the connect. */
  lemma TodayWindowOrdered(now: int, zoneOffset: int, connectHour: int, connectMinute: int,
                           disconnectHour: int, disconnectMinute: int)
    requires 0 <= connectHour < 24 && 0 <= connectMinute < 60
    requires 0 <= disconnectHour < 24 && 0 <= disconnectMinute < 60
    ensures var c := ClockInstant(now, zoneOffset, connectHour, connectMinute);
            c < RolledDisconnect(c, ClockInstant(now, zoneOffset, disconnectHour, disconnectMinute)) <= c + DayMillis
  {
  }

  /**
   * A disconnect hour of -1 does not mean "manual disconnect": the instant
   * is 23:mm of the previous day, which the rollover moves to 23:mm today,
   * and that instant is handed to the scheduler as the disconnect time.
   */
  lemma MinusOneHourDisconnectsAt23(now: int, zoneOffset: int, connectHour: int, connectMinute: int,
                                    disconnectMinute: int)
    requires 0 <= connectHour < 24 && 0 <= connectMinute < 60 && 0 <= disconnectMinute < 60
    ensures RolledDisconnect(ClockInstant(now, zoneOffset, connectHour, connectMinute),
                             ClockInstant(now, zoneOffset, -1, disconnectMinute))
            == ClockInstant(now, zoneOffset, 23, disconnectMinute)
  {
  }

  /**
   * With a local day on or after the epoch, the disconnect of an hour/minute
   * schedule is positive for every disconnect hour from -1 to 23, so when the
   * connect alarm fires it arms the disconnect alarm at that instant: an hour
   * of -1 is not a manual disconnect.
   */
  lemma TodayScheduleArmsDisconnect(st: ServiceState, s: Schedule, now: int, zoneOffset: int,
                                    connectHour: int, connectMinute: int,
                                    disconnectHour: int, disconnectMinute: int, later: int)
    requires AlarmsKeyed(st.alarms)
    requires StartOfLocalDay(now, zoneOffset) >= 0
    requires 0 <= connectHour < 24 && 0 <= connectMinute < 60
    requires -1 <= disconnectHour < 24 && 0 <= disconnectMinute < 60
    requires var c := ClockInstant(now, zoneOffset, connectHour, connectMinute);
             s == NewSchedule(s.id, s.config, s.name, s.username, s.password, c,
                              RolledDisconnect(c, ClockInstant(now, zoneOffset, disconnectHour, disconnectMinute)),
                              s.bypassPackages)
    ensures s.disconnectTimeUTC > 0
    ensures var fired := Delivered(Scheduled(st, s, now), KeyOf(ConnectAction, s.id), later);
            KeyOf(DisconnectAction, s.id) in fired.alarms
            && fired.alarms[KeyOf(DisconnectAction, s.id)] == Alarm(s.disconnectTimeUTC, s.id)
            && fired.requests == st.requests + [StartRequestFor(s)]
  {
    var sched := Scheduled(st, s, now);
    var key := KeyOf(ConnectAction, s.id);
    ScheduledArmsOneConnectAlarm(st, s, now, s, now);
    ScheduledKeepsAlarmsKeyed(st, s, now);
    DeliveredConsumesAlarm(sched, key, later);
    var rest := sched.(alarms := sched.alarms - {key});
    assert Lookup(rest.schedules, Some(s.id)) == Some(s);
  }

  // ---------------------------------------------------------------------------
  // Status strings

  datatype Stage = Connected | Disconnected | Wait | Auth | Reconnecting
                 | NoNetwork | Connecting | Prepare | Denied | Error

  /** The upper-case status name a stage is matched against. */
  function StageName(st: Stage): string
  {
    match st
    case Connected => "CONNECTED"
    case Disconnected => "DISCONNECTED"
    case Wait => "WAIT"
    case Auth => "AUTH"
    case Reconnecting => "RECONNECTING"
    case NoNetwork => "NONETWORK"
    case Connecting => "CONNECTING"
    case Prepare => "PREPARE"
    case Denied => "DENIED"
    case Error => "ERROR"
  }

  /** The token reported to the listener for a stage. */
  function StageToken(st: Stage): string
  {
    match st
    case Connected => "connected"
    case Disconnected => "disconnected"
    case Wait => "wait_connection"
    case Auth => "authenticating"
    case Reconnecting => "reconnect"
    case NoNetwork => "no_connection"
    case Connecting => "connecting"
    case Prepare => "prepare"
    case Denied => "denied"
    case Error => "error"
  }

  function UpperChar(c: char): char
  {
    if 'a' <= c <= 'z' then (c as int - 32) as char else c
  }

  /** `toUpperCase`, restricted to the ASCII letters. */
  function ToUpper(s: string): (r: string)
    ensures |r| == |s| && forall i :: 0 <= i < |s| ==> r[i] == UpperChar(s[i])
    ensures forall i :: 0 <= i < |s| ==> !('a' <= r[i] <= 'z')
  {
    seq(|s|, i requires 0 <= i < |s| => UpperChar(s[i]))
  }

  /** The stage whose name the status string spells, ignoring case. */
  function ParseStage(status: string): (r: Option<Stage>)
    ensures forall st :: r == Some(st) <==> ToUpper(status) == StageName(st)
  {
    var u := ToUpper(status);
    if u == StageName(Connected) then Some(Connected)
    else if u == StageName(Disconnected) then Some(Disconnected)
    else if u == StageName(Wait) then Some(Wait)
    else if u == StageName(Auth) then Some(Auth)
    else if u == StageName(Reconnecting) then Some(Reconnecting)
    else if u == StageName(NoNetwork) then Some(NoNetwork)
    else if u == StageName(Connecting) then Some(Connecting)
    else if u == StageName(Prepare) then Some(Prepare)
    else if u == StageName(Denied) then Some(Denied)
    else if u == StageName(Error) then Some(Error)
    else None
  }

  /** `setStage`'s output: a known stage's token, any other string unchanged. */
  function StatusToken(status: string): string
  {
    match ParseStage(status)
    case Some(st) => StageToken(st)
    case None => status
  }

  /** Strings equal up to case map to the same stage; a known stage yields its token, anything else passes through. */
  lemma StatusTokenIgnoresCase(a: string, b: string)
    requires ToUpper(a) == ToUpper(b)
    ensures ParseStage(a) == ParseStage(b)
    ensures ParseStage(a).Some? ==> StatusToken(a) == StatusToken(b) == StageToken(ParseStage(a).value)
    ensures ParseStage(a).None? ==> StatusToken(a) == a && StatusToken(b) == b
  {
  }

  /** Each stage name parses back to its stage, in upper case and in lower case. */
  lemma StageNameParses(st: Stage, lower: string)
    requires |lower| == |StageName(st)|
    requires forall i :: 0 <= i < |lower| ==> UpperChar(lower[i]) == StageName(st)[i]
    ensures ParseStage(StageName(st)) == Some(st)
    ensures ParseStage(lower) == Some(st)
  {
    var name := StageName(st);
    assert forall i :: 0 <= i < |name| ==> 'A' <= name[i] <= 'Z';
    assert ToUpper(name) == name;
    assert ToUpper(lower) == name;
  }

  /** Different stages report different tokens. */
  lemma StageTokensDistinct(a: Stage, b: Stage)
    requires StageToken(a) == StageToken(b)
    ensures a == b
  {
  }

  // ---------------------------------------------------------------------------
  // Helper state and its transitions

  /** Calls the helper makes into the tunnel library, the platform and the listener. */
  datatype HelperEvent =
    | OpenVpnStart(config: Option<string>, name: Option<string>, username: Option<string>,
                   password: Option<string>, bypassPackages: Option<seq<string>>)
    | PermissionRequested
    | VpnThreadStop
    | DefaultStatusReset
    | StatusChanged(status: string)

  datatype HelperState = HelperState(
    config: Option<string>,
    username: Option<string>,
    password: Option<string>,
    name: Option<string>,
    bypassPackages: Option<seq<string>>,
    vpnStart: bool,
    permissionNeeded: bool,
    hasListener: bool,
    events: seq<HelperEvent>)

  /** `connect`: ask the tunnel library to start with the stored settings; only a start that did not throw sets the flag. */
  function ConnectAttempted(h: HelperState, succeeds: bool): HelperState
  {
    h.(events := h.events + [OpenVpnStart(h.config, h.name, h.username, h.password, h.bypassPackages)],
       vpnStart := if succeeds then true else h.vpnStart)
  }

  /** `startVPN()`: connect only when not already started. */
  function StartRequested(h: HelperState, succeeds: bool): HelperState
  {
    if h.vpnStart then h else ConnectAttempted(h, succeeds)
  }

  /** The start settings the seven-argument `startVPN` stores before branching. */
  function SettingsStored(h: HelperState, config: Option<string>, username: Option<string>,
                          password: Option<string>, name: Option<string>,
                          bypassPackages: Option<seq<string>>, permissionNeeded: bool): HelperState
  {
    h.(config := config, username := username, password := password, name := name,
       bypassPackages := bypassPackages, permissionNeeded := permissionNeeded)
  }

  /** The immediate path: ask for the VPN permission when it is needed, otherwise start. */
  function ImmediateStart(h: HelperState, succeeds: bool): HelperState
  {
    if h.permissionNeeded then h.(events := h.events + [PermissionRequested])
    else StartRequested(h, succeeds)
  }

  /** `setStage`: report the token, and set the flag on CONNECTED, clear it on DISCONNECTED. */
  function StageSet(h: HelperState, status: string): HelperState
  {
    var stage := ParseStage(status);
    var vpnStart := if stage == Some(Connected) then true
                    else if stage == Some(Disconnected) then false
                    else h.vpnStart;
    var reset := if stage == Some(Disconnected) then [DefaultStatusReset] else [];
    var report := if h.hasListener then [StatusChanged(StatusToken(status))] else [];
    h.(vpnStart := vpnStart, events := h.events + reset + report)
  }

  /**
   * `onActivityResult`: for request code 1, a granted permission starts the
   * VPN and a refused one reports "denied" to the listener. `None` stands
   * for the NullPointerException of a refusal with no listener set.
   */
  function ActivityResultHandled(h: HelperState, requestCode: int, granted: bool, succeeds: bool): Option<HelperState>
  {
    if requestCode != 1 then Some(h)
    else if granted then Some(StartRequested(h, succeeds))
    else if h.hasListener then Some(h.(events := h.events + [StatusChanged("denied")]))
    else None
  }

  /**
   * Only request code 1 is acted on; a granted permission behaves as a
   * start request; a refusal leaves the flag alone and, with a listener,
   * reports the same token as the DENIED stage.
   */
  lemma ActivityResultEffect(h: HelperState, requestCode: int, granted: bool, succeeds: bool)
    ensures requestCode != 1 ==> ActivityResultHandled(h, requestCode, granted, succeeds) == Some(h)
    ensures requestCode == 1 && granted ==> ActivityResultHandled(h, requestCode, granted, succeeds) == Some(StartRequested(h, succeeds))
    ensures requestCode == 1 && !granted ==>
              (ActivityResultHandled(h, requestCode, granted, succeeds).None? <==> !h.hasListener)
    ensures requestCode == 1 && !granted && h.hasListener ==>
              var r := ActivityResultHandled(h, requestCode, granted, succeeds).value;
              r.vpnStart == h.vpnStart && r.events == h.events + [StatusChanged(StageToken(Denied))]
              && r.events == StageSet(h, "DENIED").events
  {
  }

  /**
   * A start request while the flag is set does nothing; otherwise it makes
   * exactly one start call with the stored settings, and the flag is then
   * set exactly when that call succeeded. After a successful start, a
   * further start request does nothing.
   */
  lemma StartRequestedGuard(h: HelperState, succeeds: bool, again: bool)
    ensures h.vpnStart ==> StartRequested(h, succeeds) == h
    ensures !h.vpnStart ==>
              StartRequested(h, succeeds).events
                == h.events + [OpenVpnStart(h.config, h.name, h.username, h.password, h.bypassPackages)]
              && StartRequested(h, succeeds).vpnStart == succeeds
    ensures StartRequested(StartRequested(h, true), again) == StartRequested(h, true)
  {
  }

  /**
   * `setStage` sets the flag for CONNECTED and clears it for DISCONNECTED,
   * in any letter case, and leaves it alone for every other status; with a
   * listener it reports exactly one status token.
   */
  lemma StageSetFlag(h: HelperState, status: string)
    ensures ToUpper(status) == "CONNECTED" ==> StageSet(h, status).vpnStart
    ensures ToUpper(status) == "DISCONNECTED" ==> !StageSet(h, status).vpnStart
    ensures ToUpper(status) != "CONNECTED" && ToUpper(status) != "DISCONNECTED" ==>
              StageSet(h, status).vpnStart == h.vpnStart
    ensures h.hasListener ==> StageSet(h, status).events[|StageSet(h, status).events| - 1] == StatusChanged(StatusToken(status))
    ensures !h.hasListener && ToUpper(status) != "DISCONNECTED" ==> StageSet(h, status).events == h.events
  {
  }

  /** The state after cancelling each listed schedule in turn. */
  function CancelledEach(st: ServiceState, list: seq<Schedule>): ServiceState
  {
    if |list| == 0 then st else Cancelled(CancelledEach(st, list[..|list| - 1]), list[|list| - 1].id)
  }

  /**
   * After cancelling each listed schedule, none of their ids is stored or
   * has an alarm; alarms stay keyed and no session request is made.
   */
  lemma {:induction false} CancelledEachForgetsAll(st: ServiceState, list: seq<Schedule>)
    requires AlarmsKeyed(st.alarms)
    ensures AlarmsKeyed(CancelledEach(st, list).alarms)
    ensures CancelledEach(st, list).requests == st.requests
    ensures forall i :: 0 <= i < |list| ==> Lookup(CancelledEach(st, list).schedules, Some(list[i].id)).None?
    ensures forall i, k :: 0 <= i < |list| && k in CancelledEach(st, list).alarms ==>
              CancelledEach(st, list).alarms[k].scheduleId != list[i].id
  {
    if |list| > 0 {
      var init, last := list[..|list| - 1], list[|list| - 1];
      var prev := CancelledEach(st, init);
      CancelledEachForgetsAll(st, init);
      CancelledIdHasNoAlarm(prev.alarms, last.id);
      LookupAfterRemove(prev.schedules, last.id);
      forall i | 0 <= i < |list| - 1
        ensures Lookup(CancelledEach(st, list).schedules, Some(list[i].id)).None?
      {
        assert list[i] == init[i];
        if list[i].id != last.id {
          LookupOtherAfterRemove(prev.schedules, last.id, Some(list[i].id));
        }
      }
      forall i, k | 0 <= i < |list| - 1 && k in CancelledEach(st, list).alarms
        ensures CancelledEach(st, list).alarms[k].scheduleId != list[i].id
      {
        assert list[i] == init[i];
      }
    }
  }

  // ---------------------------------------------------------------------------
  // The helper object

  class VpnHelper {
    var config: Option<string>
    var username: Option<string>
    var password: Option<string>
    var name: Option<string>
    var bypassPackages: Option<seq<string>>
    var vpnStart: bool
    /** Whether `VpnService.prepare` last returned a permission intent. */
    var permissionNeeded: bool
    var hasListener: bool
    var events: seq<HelperEvent>
    const scheduler: VpnScheduler

    function State(): HelperState
      reads this
    {
      HelperState(config, username, password, name, bypassPackages, vpnStart, permissionNeeded, hasListener, events)
    }

    ghost predicate Valid()
      reads scheduler.service
    {
      scheduler.service.Valid()
    }

    constructor (scheduler: VpnScheduler)
      ensures this.scheduler == scheduler
      ensures State() == HelperState(None, None, None, None, None, false, false, false, [])
    {
      this.scheduler := scheduler;
      config, username, password, name, bypassPackages := None, None, None, None, None;
      vpnStart, permissionNeeded, hasListener := false, false, false;
      events := [];
    }

    /**
     * `setOnVPNStatusChangeListener`: stores whatever it is given. A present
     * listener receives status tokens from now on; null clears it again.
     */
    method SetListener(present: bool)
      modifies this`hasListener
      ensures hasListener == present
    {
      hasListener := present;
    }

    /** `isConnected`: the started flag that the start paths and `setStage` maintain. */
    function IsConnected(): (r: bool)
      reads this
      ensures r == State().vpnStart
    {
      vpnStart
    }

    /** `connect`: `succeeds` says whether the tunnel library's start call returned without an exception. */
    method Connect(succeeds: bool)
      modifies this`events, this`vpnStart
      ensures State() == ConnectAttempted(old(State()), succeeds)
    {
      events := events + [OpenVpnStart(config, name, username, password, bypassPackages)];
      if succeeds {
        vpnStart := true;
      }
    }

    /** `startVPN()`. */
    method StartVPN(succeeds: bool)
      modifies this`events, this`vpnStart
      ensures State() == StartRequested(old(State()), succeeds)
    {
      if !vpnStart {
        Connect(succeeds);
      }
    }

    /** The assignments of the seven-argument `startVPN` to the static fields. */
    method StoreSettings(config: Option<string>, username: Option<string>, password: Option<string>,
                         name: Option<string>, bypassPackages: Option<seq<string>>, permissionNeeded: bool)
      modifies this`config, this`username, this`password, this`name, this`bypassPackages, this`permissionNeeded
      ensures State() == SettingsStored(old(State()), config, username, password, name, bypassPackages, permissionNeeded)
    {
      this.config := config;
      this.permissionNeeded := permissionNeeded;
      this.username := username;
      this.password := password;
      this.name := name;
      this.bypassPackages := bypassPackages;
    }

    /** The immediate branch: ask for the VPN permission when it is needed, otherwise `startVPN()`. */
    method StartImmediately(succeeds: bool)
      modifies this`events, this`vpnStart
      ensures State() == ImmediateStart(old(State()), succeeds)
    {
      if permissionNeeded {
        events := events + [PermissionRequested];
      } else {
        StartVPN(succeeds);
      }
    }

    /**
     * The seven-argument `startVPN`. `permissionNeeded` is whether
     * `VpnService.prepare` returns an intent, `succeeds` the outcome of the
     * tunnel start, `freshId` and `now` the UUID and clock reading a schedule
     * would use.
     */
    method StartVPNAt(config: Option<string>, username: Option<string>, password: Option<string>,
                      name: Option<string>, bypassPackages: Option<seq<string>>,
                      startTimeUTC: int, endTimeUTC: int, permissionNeeded: bool, succeeds: bool,
                      freshId: string, now: int) returns (r: Option<string>)
      requires Valid()
      modifies this, scheduler.service
      ensures Valid()
      ensures var stored := SettingsStored(old(State()), config, username, password, name, bypassPackages, permissionNeeded);
              if startTimeUTC <= 0 then
                r.None? && State() == ImmediateStart(stored, succeeds)
                && scheduler.service.State() == old(scheduler.service.State())
              else
                r == Some(freshId) && State() == stored
                && scheduler.service.State() == Scheduled(old(scheduler.service.State()),
                     NewSchedule(freshId, config, name, username, password, startTimeUTC, endTimeUTC, bypassPackages), now)
    {
      StoreSettings(config, username, password, name, bypassPackages, permissionNeeded);
      if startTimeUTC <= 0 {
        StartImmediately(succeeds);
        return None;
      }
      var id := scheduler.ScheduleVpn(freshId, config, name, username, password, startTimeUTC, endTimeUTC, bypassPackages, now);
      return Some(id);
    }

    /** The five-argument `startVPN`: immediate, with start and end time 0, so no schedule id is drawn. */
    method StartVPNNow(config: Option<string>, username: Option<string>, password: Option<string>,
                       name: Option<string>, bypassPackages: Option<seq<string>>,
                       permissionNeeded: bool, succeeds: bool)
      requires Valid()
      modifies this, scheduler.service
      ensures Valid()
      ensures State() == ImmediateStart(SettingsStored(old(State()), config, username, password, name, bypassPackages, permissionNeeded), succeeds)
      ensures scheduler.service.State() == old(scheduler.service.State())
    {
      var _ := StartVPNAt(config, username, password, name, bypassPackages, 0, 0, permissionNeeded, succeeds, "", 0);
    }

    /**
     * The hour/minute `startVPN`: a negative connect hour starts at once;
     * otherwise both times are read as today's clock times in a zone
     * `zoneOffset` ms ahead of UTC, the disconnect rolled to the next day
     * when not after the connect, and the pair is scheduled. The scheduled
     * path does not store the start settings.
     */
    method StartVPNToday(config: Option<string>, username: Option<string>, password: Option<string>,
                         name: Option<string>, bypassPackages: Option<seq<string>>,
                         connectHour: Int32, connectMinute: Int32,
                         disconnectHour: Int32, disconnectMinute: Int32,
                         permissionNeeded: bool, succeeds: bool,
                         freshId: string, now: int, zoneOffset: int) returns (r: Option<string>)
      requires Valid()
      modifies this, scheduler.service
      ensures Valid()
      ensures connectHour < 0 ==>
                r.None?
                && State() == ImmediateStart(SettingsStored(old(State()), config, username, password, name, bypassPackages, permissionNeeded), succeeds)
                && scheduler.service.State() == old(scheduler.service.State())
      ensures connectHour >= 0 ==>
                var connectAt := ClockInstant(now, zoneOffset, connectHour, connectMinute);
                var disconnectAt := RolledDisconnect(connectAt, ClockInstant(now, zoneOffset, disconnectHour, disconnectMinute));
                r == Some(freshId) && State() == old(State())
                && scheduler.service.State() == Scheduled(old(scheduler.service.State()),
                     NewSchedule(freshId, config, name, username, password, connectAt, disconnectAt, bypassPackages), now)
    {
      if connectHour < 0 {
        StartVPNNow(config, username, password, name, bypassPackages, permissionNeeded, succeeds);
        return None;
      }
      var connectTime := ClockInstant(now, zoneOffset, connectHour, connectMinute);
      var disconnectTime := ClockInstant(now, zoneOffset, disconnectHour, disconnectMinute);
      if disconnectTime <= connectTime {
        disconnectTime := disconnectTime + DayMillis;
      }
      var id := scheduler.ScheduleVpn(freshId, config, name, username, password, connectTime, disconnectTime, bypassPackages, now);
      return Some(id);
    }

    /** The loop of `stopVPN`: cancel each listed schedule, in list order. */
    method CancelEach(schedules: seq<Schedule>)
      requires Valid()
      modifies scheduler.service
      ensures Valid()
      ensures scheduler.service.State() == CancelledEach(old(scheduler.service.State()), schedules)
    {
      ghost var start := scheduler.service.State();
      for i := 0 to |schedules|
        invariant scheduler.service.Valid()
        invariant scheduler.service.State() == CancelledEach(start, schedules[..i])
      {
        assert schedules[..i + 1][..i] == schedules[..i];
        scheduler.CancelSchedule(schedules[i].id);
      }
      assert schedules[..|schedules|] == schedules;
    }

    /**
     * `stopVPN`: stop the tunnel thread, then cancel every schedule the
     * scheduler lists. The scheduler always lists none, so no schedule is
     * cancelled and the service is left as it was.
     */
    method StopVPN()
      requires Valid()
      modifies this, scheduler.service
      ensures Valid()
      ensures State() == old(State()).(events := old(events) + [VpnThreadStop])
      ensures scheduler.service.State() == old(scheduler.service.State())
    {
      events := events + [VpnThreadStop];
      var schedules := scheduler.GetAllSchedules();
      CancelEach(schedules);
    }

    /**
     * `onActivityResult`, `granted` telling whether the result is RESULT_OK.
     * Returns false where the source throws for a refusal without a listener,
     * with nothing changed.
     */
    method OnActivityResult(requestCode: int, granted: bool, succeeds: bool) returns (ok: bool)
      modifies this`events, this`vpnStart
      ensures ok <==> ActivityResultHandled(old(State()), requestCode, granted, succeeds).Some?
      ensures ok ==> State() == ActivityResultHandled(old(State()), requestCode, granted, succeeds).value
      ensures !ok ==> State() == old(State())
    {
      if requestCode == 1 {
        if granted {
          StartVPN(succeeds);
        } else {
          if !hasListener {
            return false;
          }
          events := events + [StatusChanged("denied")];
        }
      }
      return true;
    }

    /** `setStage`. */
    method SetStage(stage: string)
      modifies this`vpnStart, this`events
      ensures State() == StageSet(old(State()), stage)
    {
      var output := StatusToken(stage);
      var parsed := ParseStage(stage);
      if parsed == Some(Connected) {
        vpnStart := true;
      } else if parsed == Some(Disconnected) {
        vpnStart := false;
        events := events + [DefaultStatusReset];
      }
      if hasListener {
        events := events + [StatusChanged(output)];
      }
    }
  }
}
