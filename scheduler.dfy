/**
 * The public scheduling interface (VpnScheduler): builds a one-shot schedule
 * and hands it to the scheduling service; cancels by id. Intents to the
 * service are delivered as direct calls of its `onStartCommand`.
 */
module Facade {
  import opened Wrappers
  import opened Schedules
  import opened Service

  /** The intent `startSchedulerService` sends: no action and no extras. */
  const StartServiceIntent := Intent(None, None, None, None, None)

  /**
   * The schedule `scheduleVpn` builds: the six-argument constructor's
   * record, with the bypass list attached only when it is present and not
   * empty.
   */
  function NewSchedule(id: string, config: Option<string>, name: Option<string>,
                       username: Option<string>, password: Option<string>,
                       connectTimeUTC: int, disconnectTimeUTC: int,
                       bypassPackages: Option<seq<string>>): (s: Schedule)
    ensures s.id == id && s.config == config && s.name == name
    ensures s.username == username && s.password == password
    ensures s.connectTimeUTC == connectTimeUTC && s.disconnectTimeUTC == disconnectTimeUTC
    ensures s.isActive && !s.isRecurring && s.recurringDays == 0
    ensures s.bypassPackages.Some? <==> bypassPackages.Some? && |bypassPackages.value| > 0
    ensures s.bypassPackages.Some? ==> s.bypassPackages == bypassPackages
  {
    var bypass := if bypassPackages.Some? && |bypassPackages.value| > 0 then bypassPackages else None;
    Schedule(id, config, name, username, password, connectTimeUTC, disconnectTimeUTC, true, false, 0, bypass)
  }

  /** A facade-built schedule is one-shot, so its connect alarm is set for its connect time exactly. */
  lemma NewScheduleAlarmAtConnectTime(st: ServiceState, id: string, config: Option<string>, name: Option<string>,
                                      username: Option<string>, password: Option<string>,
                                      connectTimeUTC: int, disconnectTimeUTC: int,
                                      bypassPackages: Option<seq<string>>, now: int)
    ensures var s := NewSchedule(id, config, name, username, password, connectTimeUTC, disconnectTimeUTC, bypassPackages);
            Scheduled(st, s, now).alarms[KeyOf(ConnectAction, id)] == Alarm(connectTimeUTC, id)
            && Lookup(Scheduled(st, s, now).schedules, Some(id)) == Some(s)
  {
    var s := NewSchedule(id, config, name, username, password, connectTimeUTC, disconnectTimeUTC, bypassPackages);
    LookupAfterUpsert(st.schedules, s);
  }

  class VpnScheduler {
    const service: VpnSchedulerService

    constructor (service: VpnSchedulerService)
      ensures this.service == service
    {
      this.service := service;
    }

    /** `startSchedulerService`: an intent without action or extras; the clock is not read for it. */
    method StartSchedulerService()
      requires service.Valid()
      modifies service
      ensures service.Valid() && service.State() == old(service.State())
    {
      service.OnStartCommand(Some(StartServiceIntent), 0);
    }

    /**
     * `scheduleVpn`: `freshId` is the random UUID the new schedule draws,
     * `now` the clock reading when the service handles the request. Returns
     * the id of the schedule handed to the service.
     */
    method ScheduleVpn(freshId: string, config: Option<string>, name: Option<string>,
                       username: Option<string>, password: Option<string>,
                       connectTimeUTC: int, disconnectTimeUTC: int,
                       bypassPackages: Option<seq<string>>, now: int) returns (id: string)
      requires service.Valid()
      modifies service
      ensures service.Valid() && id == freshId
      ensures service.State() == Scheduled(old(service.State()),
                NewSchedule(id, config, name, username, password, connectTimeUTC, disconnectTimeUTC, bypassPackages), now)
      ensures service.alarms[KeyOf(ConnectAction, id)] == Alarm(connectTimeUTC, id)
    {
      var schedule := new VpnSchedule.Create(freshId, config, name, username, password, connectTimeUTC, disconnectTimeUTC);
      if bypassPackages.Some? && |bypassPackages.value| > 0 {
        schedule.SetBypassPackages(bypassPackages);
      }
      StartSchedulerService();
      service.OnStartCommand(Some(Intent(None, None, Some("schedule"), Some(schedule.Value()), None)), now);
      id := schedule.id;
    }

    /** `cancelSchedule`: forwards exactly this id as a cancel request. */
    method CancelSchedule(scheduleId: string)
      requires service.Valid()
      modifies service
      ensures service.Valid() && service.State() == Cancelled(old(service.State()), scheduleId)
    {
      StartSchedulerService();
      service.OnStartCommand(Some(Intent(None, None, Some("cancel"), None, Some(scheduleId))), 0);
    }

    /** `updateScheduleInternal` (never called): an "update" request, which saves without arming an alarm. */
    method UpdateSchedule(schedule: VpnSchedule)
      requires service.Valid()
      modifies service
      ensures service.Valid() && service.State() == Saved(old(service.State()), schedule.Value())
      ensures service.alarms == old(service.alarms)
    {
      service.OnStartCommand(Some(Intent(None, None, Some("update"), Some(schedule.Value()), None)), 0);
    }

    /** `getAllSchedules`: the service is started, but the list returned is always empty. */
    method GetAllSchedules() returns (list: seq<Schedule>)
      requires service.Valid()
      modifies service
      ensures service.Valid() && service.State() == old(service.State())
      ensures list == []
    {
      StartSchedulerService();
      list := [];
    }
  }
}
