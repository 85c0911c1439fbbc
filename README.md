# VPN scheduling core of an Android OpenVPN wrapper

This project models the scheduling part of the OpenVPN Android library. It
covers four pieces:

- **the schedule record** (`VpnSchedule`, module `Schedules`). It holds the
  connect and disconnect instants in UTC milliseconds, an active flag, a
  recurrence flag, a weekday bitmask and the tunnel settings. It also has
  the next-connect-time search, the one-minute trigger window and the
  disconnect test.
- **the scheduling service** (`VpnSchedulerService`, module `Service`). It
  keeps a persisted list of schedules with upsert and remove-all semantics.
  It arms and cancels alarms whose request codes are `hash(id)` for connect
  and `hash(id) + 1000` for disconnect. It dispatches incoming intents and
  asks the tunnel service to start or stop.
- **the public scheduling interface** (`VpnScheduler`, module `Facade`). It
  builds one-shot schedules and forwards schedule and cancel requests to the
  service.
- **the host-facing helper** (`VPNHelper`, module `Helper`). It starts a
  tunnel immediately or at given instants, or at hour:minute today with
  rollover past midnight. It also stops the tunnel and maps tunnel status
  strings to the tokens reported to the host.

Mutable objects are Dafny classes:

- The `VpnSchedule` object is changed through its setters.
- The service holds its store, alarms and outgoing requests as fields.
- The helper holds its static fields and a log of calls it makes outward.

Every state-changing method states its new state as a pure transition of the
old one. These transitions are `Scheduled`, `Cancelled`, `ConnectFired`,
`DisconnectFired`, `Dispatched`, `StageSet` and others. The properties the
source promises are proved about those transitions as lemmas. The store
and the "schedule" intent extra carry the serialised copy of a schedule, the
`Schedule` datatype. An alarm carries only its trigger instant and the
schedule id extra, as the source's alarm intents do. An exact alarm fires
once: `Delivered` drops it from the armed alarms before the service handles
its intent.

Inputs the code reads from the platform are parameters of the model:

| parameter | stands for |
|---|---|
| `now` | the clock |
| `freshId` | the random UUID of a new schedule |
| `zoneOffset` | the device time zone |
| `permissionNeeded` | whether `VpnService.prepare` returns an intent |
| `succeeds` | whether the tunnel library's start call returned without an exception |
| `granted` | whether the permission activity returned `RESULT_OK` |

Calls the code makes outward are recorded in `requests` and `events`:

- the tunnel service start and stop intents;
- `OpenVpnApi.startVpn`;
- the permission activity;
- `OpenVPNThread.stop`;
- `setDefaultStatus`;
- the listener.

`String.hashCode` is modelled exactly for strings of Basic Multilingual
Plane characters, with 32-bit wrap-around, so request codes of such ids
(random UUIDs among them) are the real ones. Two ids with the same hash code share an alarm, as
`CollidingIdsShareConnectAlarm` shows for "Aa" and "BB".

## Model

| member | source | states |
|---|---|---|
| Schedules.WeekdayUTC | vpnLib/src/main/java/de/blinkt/openvpn/scheduling/VpnSchedule.java:106 | the UTC weekday `Calendar.DAY_OF_WEEK - 1` of an instant is one of 0 (Sunday) to 6 (Saturday) |
| Schedules.WeekdayUTCCalendar | vpnLib/src/main/java/de/blinkt/openvpn/scheduling/VpnSchedule.java:102-106 | the epoch is a Thursday, adding a day advances the weekday by one modulo seven, a week later it repeats, and it is the same at every instant of one UTC day |
| Schedules.InMaskBits | vpnLib/src/main/java/de/blinkt/openvpn/scheduling/VpnSchedule.java:107-109 | the test `(mask & (1 << d)) != 0` reads bit d only: the single-day mask for d holds d and no other day, -1 holds every day, 0 holds none |
| Schedules.VpnSchedule.constructor | vpnLib/src/main/java/de/blinkt/openvpn/scheduling/VpnSchedule.java:24-29 | a new schedule takes the drawn UUID as its id, is active, one-shot, with an empty mask, null strings and zero instants |
| Schedules.VpnSchedule.Create | vpnLib/src/main/java/de/blinkt/openvpn/scheduling/VpnSchedule.java:31-40 | the six-argument constructor: the defaults above with the given settings and instants |
| Schedules.VpnSchedule.Restore | vpnLib/src/main/java/de/blinkt/openvpn/scheduling/VpnSchedulerService.java:67 | a deserialised schedule object has exactly the record it was sent with |
| Schedules.VpnSchedule.SetId | vpnLib/src/main/java/de/blinkt/openvpn/scheduling/VpnSchedule.java:44 | only the id changes |
| Schedules.VpnSchedule.SetConfig | vpnLib/src/main/java/de/blinkt/openvpn/scheduling/VpnSchedule.java:47 | only the config changes |
| Schedules.VpnSchedule.SetName | vpnLib/src/main/java/de/blinkt/openvpn/scheduling/VpnSchedule.java:50 | only the name changes |
| Schedules.VpnSchedule.SetUsername | vpnLib/src/main/java/de/blinkt/openvpn/scheduling/VpnSchedule.java:53 | only the username changes |
| Schedules.VpnSchedule.SetPassword | vpnLib/src/main/java/de/blinkt/openvpn/scheduling/VpnSchedule.java:56 | only the password changes |
| Schedules.VpnSchedule.SetConnectTimeUTC | vpnLib/src/main/java/de/blinkt/openvpn/scheduling/VpnSchedule.java:59 | only the connect instant changes |
| Schedules.VpnSchedule.SetDisconnectTimeUTC | vpnLib/src/main/java/de/blinkt/openvpn/scheduling/VpnSchedule.java:62 | only the disconnect instant changes |
| Schedules.VpnSchedule.SetActive | vpnLib/src/main/java/de/blinkt/openvpn/scheduling/VpnSchedule.java:65 | only the active flag changes |
| Schedules.VpnSchedule.SetRecurring | vpnLib/src/main/java/de/blinkt/openvpn/scheduling/VpnSchedule.java:68 | only the recurrence flag changes |
| Schedules.VpnSchedule.SetRecurringDays | vpnLib/src/main/java/de/blinkt/openvpn/scheduling/VpnSchedule.java:71 | only the weekday mask changes |
| Schedules.VpnSchedule.SetBypassPackages | vpnLib/src/main/java/de/blinkt/openvpn/scheduling/VpnSchedule.java:74 | only the bypass list changes |
| Schedules.VpnSchedule.GetNextConnectTime | vpnLib/src/main/java/de/blinkt/openvpn/scheduling/VpnSchedule.java:80-116 | the loop over the seven candidate days returns NextConnectTime of the schedule's record, whose properties are the lemmas below |
| Schedules.NextConnectTimeOneShot | vpnLib/src/main/java/de/blinkt/openvpn/scheduling/VpnSchedule.java:80-83 | a one-shot schedule's next connect is its connect instant whatever the clock |
| Schedules.NextConnectTimeFutureAnchor | vpnLib/src/main/java/de/blinkt/openvpn/scheduling/VpnSchedule.java:88-91 | a recurring schedule whose anchor is still ahead returns the anchor |
| Schedules.FirstOccurrenceFromFinds | vpnLib/src/main/java/de/blinkt/openvpn/scheduling/VpnSchedule.java:101-112 | the search returns the first qualifying candidate day |
| Schedules.FirstOccurrenceFromFallback | vpnLib/src/main/java/de/blinkt/openvpn/scheduling/VpnSchedule.java:114-115 | with no qualifying candidate the search returns the original anchor |
| Schedules.NextConnectTimeSearch | vpnLib/src/main/java/de/blinkt/openvpn/scheduling/VpnSchedule.java:93-115 | after the anchor has passed, the result is the earliest of anchor+k days (k in 1..6) that is in the mask and after now; the anchor comes back exactly when there is none |
| Schedules.NextConnectTimeBounds | vpnLib/src/main/java/de/blinkt/openvpn/scheduling/VpnSchedule.java:80-116 | the result is the anchor, or lies after now, at most six days past the anchor, at the anchor's UTC time of day, on a masked weekday |
| Schedules.EmptyMaskKeepsAnchor | vpnLib/src/main/java/de/blinkt/openvpn/scheduling/VpnSchedule.java:101-115 | with no weekday in the mask the anchor is returned |
| Schedules.ZeroMaskKeepsAnchor | vpnLib/src/main/java/de/blinkt/openvpn/scheduling/VpnSchedule.java:101-115 | a zero mask returns the anchor |
| Schedules.StaleAnchorIsReturned | vpnLib/src/main/java/de/blinkt/openvpn/scheduling/VpnSchedule.java:101-115 | an anchor six or more days old is returned although it lies in the past |
| Schedules.DailyMaskNextWithinADay | vpnLib/src/main/java/de/blinkt/openvpn/scheduling/VpnSchedule.java:101-112 | with every weekday masked and a recent anchor, the next connect is within one day after now |
| Schedules.TuesdayFridayExample | vpnLib/src/main/java/de/blinkt/openvpn/scheduling/VpnSchedule.java:101-112 | a Tuesday 09:00 anchor with mask {Tue, Fri}, asked on Wednesday 10:00, yields Friday 09:00 |
| Schedules.ShouldTriggerAt | vpnLib/src/main/java/de/blinkt/openvpn/scheduling/VpnSchedule.java:122-148 | true exactly for an active schedule within one minute of its connect instant, and for a recurring one only when the clock's UTC weekday is masked |
| Schedules.ShouldDisconnectAt | vpnLib/src/main/java/de/blinkt/openvpn/scheduling/VpnSchedule.java:153-156 | true exactly for an active schedule whose disconnect instant has been reached |
| Schedules.OneShotTriggersAtNextConnect | vpnLib/src/main/java/de/blinkt/openvpn/scheduling/VpnSchedule.java:143-147 | an active one-shot schedule passes the trigger test at the instant its alarm is set for |
| Schedules.MovedOccurrenceFailsTriggerTest | vpnLib/src/main/java/de/blinkt/openvpn/scheduling/VpnSchedule.java:126-142 | the window is anchored at the connect instant, so a recurring occurrence moved to a later day fails the trigger test at its own instant |
| Schedules.ShouldDisconnectIsMonotone | vpnLib/src/main/java/de/blinkt/openvpn/scheduling/VpnSchedule.java:153-156 | once due, a disconnect stays due as the clock advances |
| Service.HashCode | vpnLib/src/main/java/de/blinkt/openvpn/scheduling/VpnSchedulerService.java:200 | the request-code hash is Java's `String.hashCode`: congruent modulo 2^32 to s[0]*31^(n-1) + ... + s[n-1] and in int range |
| Service.RequestCode | vpnLib/src/main/java/de/blinkt/openvpn/scheduling/VpnSchedulerService.java:167 | the connect code of an id is its hash code, the disconnect code its hash code plus 1000 with int wrap-around |
| Service.RequestCodesDiffer | vpnLib/src/main/java/de/blinkt/openvpn/scheduling/VpnSchedulerService.java:165-170 | the connect and disconnect request codes of one id never coincide |
| Service.Wrap32 | vpnLib/src/main/java/de/blinkt/openvpn/scheduling/VpnSchedulerService.java:167 | Java int arithmetic: the result is congruent to the exact sum modulo 2^32 and in int range |
| Service.CollidingIdsShareConnectAlarm | vpnLib/src/main/java/de/blinkt/openvpn/scheduling/VpnSchedulerService.java:198-203 | ids with equal hash codes share one connect alarm: scheduling "BB" makes the alarm of "Aa" deliver "BB" |
| Service.CancelledIdHasNoAlarm | vpnLib/src/main/java/de/blinkt/openvpn/scheduling/VpnSchedulerService.java:224-249 | cancelling both request codes leaves no alarm that delivers the id, and alarms stay keyed by their own id |
| Service.FirstIndexOf | vpnLib/src/main/java/de/blinkt/openvpn/scheduling/VpnSchedulerService.java:277-285 | the position found holds the id and no earlier entry does; none found means no entry holds it |
| Service.UpsertReplacesOrAppends | vpnLib/src/main/java/de/blinkt/openvpn/scheduling/VpnSchedulerService.java:257-271 | saving replaces exactly the first entry with the id, leaving the rest, or appends at the end |
| Service.LookupAfterUpsert | vpnLib/src/main/java/de/blinkt/openvpn/scheduling/VpnSchedulerService.java:257-271 | after saving, looking the id up finds the saved schedule |
| Service.LookupOtherAfterUpsert | vpnLib/src/main/java/de/blinkt/openvpn/scheduling/VpnSchedulerService.java:257-271 | saving does not change what other ids look up to |
| Service.UpsertIdempotent | vpnLib/src/main/java/de/blinkt/openvpn/scheduling/VpnSchedulerService.java:257-271 | saving the same schedule twice equals saving it once |
| Service.RemoveAllMembers | vpnLib/src/main/java/de/blinkt/openvpn/scheduling/VpnSchedulerService.java:287-297 | removal keeps exactly the entries with other ids |
| Service.RemoveAllConcat | vpnLib/src/main/java/de/blinkt/openvpn/scheduling/VpnSchedulerService.java:287-297 | removing from a concatenation removes from each part, so kept entries keep their order |
| Service.RemoveAllAbsent | vpnLib/src/main/java/de/blinkt/openvpn/scheduling/VpnSchedulerService.java:287-297 | removing an absent id leaves the list unchanged |
| Service.RemoveAllIdempotent | vpnLib/src/main/java/de/blinkt/openvpn/scheduling/VpnSchedulerService.java:287-297 | removing twice equals removing once |
| Service.LookupAfterRemove | vpnLib/src/main/java/de/blinkt/openvpn/scheduling/VpnSchedulerService.java:287-297 | a removed id no longer looks up |
| Service.LookupOtherAfterRemove | vpnLib/src/main/java/de/blinkt/openvpn/scheduling/VpnSchedulerService.java:287-297 | removal does not change what other ids look up to |
| Service.ScheduledKeepsAlarmsKeyed | vpnLib/src/main/java/de/blinkt/openvpn/scheduling/VpnSchedulerService.java:189-222 | scheduling keeps every alarm under the key of its own action and id |
| Service.ConnectFiredKeepsAlarmsKeyed | vpnLib/src/main/java/de/blinkt/openvpn/scheduling/VpnSchedulerService.java:126-149 | a connect alarm keeps every alarm under its own key |
| Service.ScheduledArmsOneConnectAlarm | vpnLib/src/main/java/de/blinkt/openvpn/scheduling/VpnSchedulerService.java:189-222 | scheduling stores the schedule, arms one connect alarm at its next connect time, sends nothing, and re-scheduling the same id adds neither alarm nor entry |
| Service.OneShotAlarmAtConnectTime | vpnLib/src/main/java/de/blinkt/openvpn/scheduling/VpnSchedulerService.java:205 | a one-shot schedule's alarm is set for its connect instant |
| Service.CancelledForgetsId | vpnLib/src/main/java/de/blinkt/openvpn/scheduling/VpnSchedulerService.java:224-255 | after cancelling, the id neither looks up nor has an alarm, other ids look up as before, no request is sent, and cancelling again changes nothing |
| Service.CancelledUnknownId | vpnLib/src/main/java/de/blinkt/openvpn/scheduling/VpnSchedulerService.java:224-255 | cancelling an id with no entry and no alarm changes nothing |
| Service.ConnectFiredEffect | vpnLib/src/main/java/de/blinkt/openvpn/scheduling/VpnSchedulerService.java:126-149 | an unknown id does nothing; a stored one sends one start request with its settings and arms the disconnect alarm exactly when its disconnect instant is positive |
| Service.DisconnectFiredEffect | vpnLib/src/main/java/de/blinkt/openvpn/scheduling/VpnSchedulerService.java:151-158 | a disconnect alarm sends one stop request and changes neither store nor alarms |
| Service.DispatchNoOps | vpnLib/src/main/java/de/blinkt/openvpn/scheduling/VpnSchedulerService.java:56-82 | null intents and requests missing their extra do nothing, "update" saves without arming, an alarm action takes precedence |
| Service.DispatchKeepsAlarmsKeyed | vpnLib/src/main/java/de/blinkt/openvpn/scheduling/VpnSchedulerService.java:56-82 | every intent keeps alarms keyed by their own action and id |
| Service.VpnSchedulerService.constructor | vpnLib/src/main/java/de/blinkt/openvpn/scheduling/VpnSchedulerService.java:46-53 | the service starts over the persisted store and registered alarms with no request sent |
| Service.VpnSchedulerService.GetAllSchedules | vpnLib/src/main/java/de/blinkt/openvpn/scheduling/VpnSchedulerService.java:303-307 | returns the stored list |
| Service.VpnSchedulerService.GetSchedule | vpnLib/src/main/java/de/blinkt/openvpn/scheduling/VpnSchedulerService.java:277-285 | the scan returns the first stored schedule with the id, or nothing |
| Service.VpnSchedulerService.SaveSchedule | vpnLib/src/main/java/de/blinkt/openvpn/scheduling/VpnSchedulerService.java:257-275 | the loop with early exit leaves the store equal to the upsert of the schedule |
| Service.VpnSchedulerService.RemoveSchedule | vpnLib/src/main/java/de/blinkt/openvpn/scheduling/VpnSchedulerService.java:287-301 | the in-place iterator removal leaves the store equal to the list without the id, order kept |
| Service.VpnSchedulerService.ScheduleDisconnect | vpnLib/src/main/java/de/blinkt/openvpn/scheduling/VpnSchedulerService.java:160-187 | arms the disconnect alarm under hash(id)+1000 at the disconnect instant, replacing any earlier one |
| Service.VpnSchedulerService.ScheduleVpn | vpnLib/src/main/java/de/blinkt/openvpn/scheduling/VpnSchedulerService.java:189-222 | saves the schedule and arms its connect alarm at its next connect time |
| Service.VpnSchedulerService.CancelSchedule | vpnLib/src/main/java/de/blinkt/openvpn/scheduling/VpnSchedulerService.java:224-255 | cancels both alarms of the id and removes every entry with it |
| Service.VpnSchedulerService.HandleScheduledConnect | vpnLib/src/main/java/de/blinkt/openvpn/scheduling/VpnSchedulerService.java:126-149 | the connect transition |
| Service.VpnSchedulerService.HandleScheduledDisconnect | vpnLib/src/main/java/de/blinkt/openvpn/scheduling/VpnSchedulerService.java:151-158 | the disconnect transition, the id ignored |
| Service.DeliveredConsumesAlarm | vpnLib/src/main/java/de/blinkt/openvpn/scheduling/VpnSchedulerService.java:62-65 | a fired alarm is no longer armed and alarms stay keyed; a connect alarm runs the connect handler for its id, a disconnect alarm sends one stop request and leaves store and other alarms alone |
| Service.VpnSchedulerService.DeliverAlarm | vpnLib/src/main/java/de/blinkt/openvpn/scheduling/VpnSchedulerService.java:62-65 | an armed alarm is delivered only once its trigger instant has been reached; it is dropped and its intent handled: the delivery transition |
| Service.VpnSchedulerService.OnStartCommand | vpnLib/src/main/java/de/blinkt/openvpn/scheduling/VpnSchedulerService.java:56-82 | dispatch in the source's order of tests |
| Facade.NewSchedule | vpnLib/src/main/java/de/blinkt/openvpn/scheduling/VpnScheduler.java:37-41 | the built schedule carries the given settings, is active and one-shot, and has a bypass list exactly when a non-empty one was given |
| Facade.NewScheduleAlarmAtConnectTime | vpnLib/src/main/java/de/blinkt/openvpn/scheduling/VpnScheduler.java:34-48 | a schedule built by the facade is stored and alarmed at exactly its connect instant |
| Facade.VpnScheduler.constructor | vpnLib/src/main/java/de/blinkt/openvpn/scheduling/VpnScheduler.java:19-21 | the facade talks to the given service |
| Facade.VpnScheduler.StartSchedulerService | vpnLib/src/main/java/de/blinkt/openvpn/scheduling/VpnScheduler.java:70-73 | the empty start intent changes no state |
| Facade.VpnScheduler.ScheduleVpn | vpnLib/src/main/java/de/blinkt/openvpn/scheduling/VpnScheduler.java:34-48 | returns the new schedule's id; the service has stored the built schedule and armed its alarm at the connect instant |
| Facade.VpnScheduler.CancelSchedule | vpnLib/src/main/java/de/blinkt/openvpn/scheduling/VpnScheduler.java:55-59 | the service has cancelled exactly that id |
| Facade.VpnScheduler.UpdateSchedule | vpnLib/src/main/java/de/blinkt/openvpn/scheduling/VpnScheduler.java:95-100 | the service has saved the schedule without touching alarms |
| Facade.VpnScheduler.GetAllSchedules | vpnLib/src/main/java/de/blinkt/openvpn/scheduling/VpnScheduler.java:65-68 | always returns the empty list, with the service state unchanged |
| Helper.ClockInstant | vpnLib/src/main/java/de/blinkt/openvpn/VPNHelper.java:124-135 | the instant falls on a whole local minute; for an in-range hour and minute it lies within today and reads exactly hour:minute on the local clock |
| Helper.RolledDisconnect | vpnLib/src/main/java/de/blinkt/openvpn/VPNHelper.java:137-140 | a disconnect not after the connect moves exactly one day on, a later one stays; the result is after the connect exactly when the given disconnect was less than a day before it |
| Helper.TodayWindowOrdered | vpnLib/src/main/java/de/blinkt/openvpn/VPNHelper.java:123-146 | in-range times give a disconnect after the connect and at most a day later |
| Helper.MinusOneHourDisconnectsAt23 | vpnLib/src/main/java/de/blinkt/openvpn/VPNHelper.java:131-140 | a disconnect hour of -1 gives a disconnect at 23:mm today, not a manual disconnect |
| Helper.TodayScheduleArmsDisconnect | vpnLib/src/main/java/de/blinkt/openvpn/VPNHelper.java:122-146 | for a schedule built from today's hours (disconnect hour -1 included), the disconnect instant is positive, and when its connect alarm is delivered the start request is sent and the disconnect alarm is armed at that instant |
| Helper.ToUpper | vpnLib/src/main/java/de/blinkt/openvpn/VPNHelper.java:192 | upper-casing maps each character and leaves no lower-case ASCII letter |
| Helper.ParseStage | vpnLib/src/main/java/de/blinkt/openvpn/VPNHelper.java:192-226 | a status names a stage exactly when its upper-case form is that stage's name |
| Helper.StatusTokenIgnoresCase | vpnLib/src/main/java/de/blinkt/openvpn/VPNHelper.java:190-227 | statuses equal up to case report alike; a known stage reports its token, anything else passes through |
| Helper.StageNameParses | vpnLib/src/main/java/de/blinkt/openvpn/VPNHelper.java:192-226 | every stage name parses back to its stage, in any letter case |
| Helper.StageTokensDistinct | vpnLib/src/main/java/de/blinkt/openvpn/VPNHelper.java:193-225 | different stages report different tokens |
| Helper.StartRequestedGuard | vpnLib/src/main/java/de/blinkt/openvpn/VPNHelper.java:57-59 | a start with the flag set does nothing; otherwise one start call with the stored settings, the flag set exactly on success; a second start after success does nothing |
| Helper.ActivityResultEffect | vpnLib/src/main/java/de/blinkt/openvpn/VPNHelper.java:281-292 | only request code 1 acts; a grant starts, a refusal reports the DENIED token and fails without a listener |
| Helper.StageSetFlag | vpnLib/src/main/java/de/blinkt/openvpn/VPNHelper.java:190-228 | CONNECTED sets and DISCONNECTED clears the flag in any case, other statuses leave it, a listener gets exactly the token |
| Helper.CancelledEachForgetsAll | vpnLib/src/main/java/de/blinkt/openvpn/VPNHelper.java:161-165 | after cancelling each listed schedule, none of their ids is stored or alarmed and no request is sent |
| Helper.VpnHelper.constructor | vpnLib/src/main/java/de/blinkt/openvpn/VPNHelper.java:45-50 | the helper starts not connected, with no settings and no listener |
| Helper.VpnHelper.IsConnected | vpnLib/src/main/java/de/blinkt/openvpn/VPNHelper.java:41-43 | returns the started flag whose changes StartRequestedGuard, StageSetFlag and ActivityResultEffect state |
| Helper.VpnHelper.SetListener | vpnLib/src/main/java/de/blinkt/openvpn/VPNHelper.java:52-55 | the listener is set to what is given: registered when present, cleared when null |
| Helper.VpnHelper.Connect | vpnLib/src/main/java/de/blinkt/openvpn/VPNHelper.java:181-188 | one start call with the stored settings; the flag set only if it did not throw |
| Helper.VpnHelper.StartVPN | vpnLib/src/main/java/de/blinkt/openvpn/VPNHelper.java:57-59 | connects only when not started |
| Helper.VpnHelper.StartVPNNow | vpnLib/src/main/java/de/blinkt/openvpn/VPNHelper.java:62-64 | stores the settings and starts at once (or asks for permission) without touching the scheduler |
| Helper.VpnHelper.StoreSettings | vpnLib/src/main/java/de/blinkt/openvpn/VPNHelper.java:78-83 | the settings and the permission outcome are stored, nothing else changes |
| Helper.VpnHelper.StartImmediately | vpnLib/src/main/java/de/blinkt/openvpn/VPNHelper.java:86-92 | asks for the permission when needed, otherwise the start request transition |
| Helper.VpnHelper.StartVPNAt | vpnLib/src/main/java/de/blinkt/openvpn/VPNHelper.java:77-97 | stores the settings; a start instant of 0 or less starts at once and returns no id, a positive one schedules and returns the new id |
| Helper.VpnHelper.StartVPNToday | vpnLib/src/main/java/de/blinkt/openvpn/VPNHelper.java:113-147 | a negative connect hour starts at once; otherwise schedules today's connect and rolled disconnect instants without storing the settings |
| Helper.VpnHelper.CancelEach | vpnLib/src/main/java/de/blinkt/openvpn/VPNHelper.java:162-165 | the loop cancels each listed schedule in order |
| Helper.VpnHelper.StopVPN | vpnLib/src/main/java/de/blinkt/openvpn/VPNHelper.java:157-168 | stops the tunnel thread; since the scheduler lists no schedules, nothing is cancelled |
| Helper.VpnHelper.OnActivityResult | vpnLib/src/main/java/de/blinkt/openvpn/VPNHelper.java:281-292 | the activity-result transition, failing with nothing changed where the source throws |
| Helper.VpnHelper.SetStage | vpnLib/src/main/java/de/blinkt/openvpn/VPNHelper.java:190-228 | the stage transition: flag, default-status reset on DISCONNECTED, token to the listener |

## Left out

- Helper.VpnHelper.constructor: the source keeps the settings, the listener, the profile intent and `vpnStart` in static fields shared by every helper in the process, and its constructor resets only `vpnStart`. The model gives each helper its own fields and clears them all. Two behaviours are lost: a second helper does not inherit the first one's settings and listener, and constructing a helper while a tunnel is up is not shown to make `startVPN()` connect again.

- The foreground service, its notification channel and notifications, `onBind` and `START_STICKY` are not modelled. They change no schedule state.
- `setExactAndAllowWhileIdle` and `setExact` are one alarm operation here. The API-level branch only picks which one is called.
- Shared-preferences and Gson serialisation are taken to round-trip exactly. The bypass list is kept as a list instead of its JSON string.
- Alarms are keyed by request code and intent action. That is how the platform tells pending intents apart: the connect and disconnect intents differ by action. Extras do not take part, and `FLAG_UPDATE_CURRENT` replaces them.
- Service.HashCode: characters outside the Basic Multilingual Plane count as one code point rather than two UTF-16 units. Random UUIDs are ASCII.
- Instants are unbounded integers. 64-bit overflow of timestamps and of `Math.abs(Long.MIN_VALUE)` is not modelled.
- Helper.ClockInstant: the device zone is a fixed offset, without daylight-saving changes. The three separate clock reads of the hour/minute start are one `now`.
- Helper.ToUpper: only ASCII letters are upper-cased. Locale-specific case mapping is not modelled.
- The broadcast receiver's duration and byte counters, the `status` JSON object and the attach/detach registration are not modelled. `onCreate` of the helper activity and the log-cache initialisation are also left out. The receiver's call of `setStage` is `SetStage`.
- Service.Delivered: the function itself does not compare the alarm's trigger instant with the clock, because the platform decides when an alarm fires. `DeliverAlarm` requires the clock to have reached that instant.
- Intents are delivered as direct, sequential calls of `OnStartCommand`, without concurrency or process death. The clock reading of a start or cancel intent is 0, because those paths do not read it.
- Null values are not modelled for the schedule id (`setId(null)`) or for the intent extras in places the source dereferences them. The config, name, username, password and bypass list are `Option` values, so null is modelled for them. The listener is modelled as present or absent, and `SetListener` can clear it as a null argument does.
- Behaviours sometimes described for this library but absent from its code are not modelled:
  - firing past-due schedules at once;
  - cancelling other schedules on connect;
  - clearing the store on a scheduled disconnect;
  - releasing the foreground service when idle.
- The in-code comment calls a disconnect hour of -1 "manual disconnect". The code arms a disconnect at 23:mm instead, and the model follows the code (`MinusOneHourDisconnectsAt23`).
- The disconnect rolls over only past a not-later instant. Out-of-range hours or minutes can still leave it before the connect: 23:59 with disconnect hour -1 and minute 0 is one case. `RolledDisconnect` states exactly when it ends up after the connect.
