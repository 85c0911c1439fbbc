/**
 * The scheduling service (VpnSchedulerService): a persisted list of
 * schedules, alarms registered with the OS alarm service, and the start and
 * stop requests it sends to the tunnel service.
 *
 * Every operation is a method of the class; each is tied to a pure
 * transition on ServiceState, and what the service promises is proved about
 * those transitions.
 */
module Service {
  import opened Wrappers
  import opened Schedules

  // ---------------------------------------------------------------------------
  // Alarm request codes

  /** Java's 32-bit wrap-around. */
  function Wrap32(x: int): (r: Int32)
    ensures (r - x) % 0x1_0000_0000 == 0
  {
    (x + 0x8000_0000) % 0x1_0000_0000 - 0x8000_0000
  }

  function Pow31(n: nat): int
  {
    if n == 0 then 1 else 31 * Pow31(n - 1)
  }

  /** The documented value of `String.hashCode` in exact arithmetic: s[0]*31^(n-1) + ... + s[n-1]. */
  function Polynomial(s: string): int
  {
    if |s| == 0 then 0 else s[0] as int * Pow31(|s| - 1) + Polynomial(s[1..])
  }

  /** Appending a character multiplies the polynomial by 31 and adds the character. */
  lemma {:induction false} PolynomialAppend(s: string, c: char)
    ensures Polynomial(s + [c]) == 31 * Polynomial(s) + c as int
    decreases |s|
  {
    if |s| == 0 {
      assert (s + [c])[1..] == [];
    } else {
      assert (s + [c])[1..] == s[1..] + [c];
      PolynomialAppend(s[1..], c);
      assert Pow31(|s|) == 31 * Pow31(|s| - 1);
    }
  }

  /** A multiple of 2^32 plus a multiple of 2^32 is one. */
  lemma MultiplesOfWord(a: int, b: int)
    requires a % 0x1_0000_0000 == 0 && b % 0x1_0000_0000 == 0
    ensures (a + b) % 0x1_0000_0000 == 0 && (31 * a) % 0x1_0000_0000 == 0
  {
    var qa, qb := a / 0x1_0000_0000, b / 0x1_0000_0000;
    assert a == 0x1_0000_0000 * qa && b == 0x1_0000_0000 * qb;
    assert a + b == 0x1_0000_0000 * (qa + qb);
    assert 31 * a == 0x1_0000_0000 * (31 * qa);
  }

  /**
   * `String.hashCode`: h = 31 * h + c over the characters, in 32-bit
   * arithmetic; the result is the documented polynomial reduced to int range.
   */
  function HashCode(s: string): (r: Int32)
    ensures (r - Polynomial(s)) % 0x1_0000_0000 == 0
  {
    if |s| == 0 then 0
    else
      var init, c := s[..|s| - 1], s[|s| - 1];
      var h := HashCode(init);
      var r := Wrap32(31 * h + c as int);
      assert s == init + [c];
      PolynomialAppend(init, c);
      MultiplesOfWord(h - Polynomial(init), 0);
      MultiplesOfWord(r - (31 * h + c as int), 31 * (h - Polynomial(init)));
      r
  }

  datatype AlarmAction = ConnectAction | DisconnectAction

  /** A pending intent is identified by its request code and its intent action. */
  datatype AlarmKey = AlarmKey(requestCode: Int32, action: AlarmAction)

  /** What an armed alarm delivers: its trigger instant and the schedule id extra. */
  datatype Alarm = Alarm(triggerAtUTC: int, scheduleId: string)

  /** `hash(id)` for the connect alarm, `hash(id) + 1000` for the disconnect alarm. */
  function RequestCode(action: AlarmAction, id: string): (r: Int32)
    ensures action == ConnectAction ==> r == HashCode(id)
    ensures action == DisconnectAction ==> (r - (HashCode(id) + 1000)) % 0x1_0000_0000 == 0
  {
    match action
    case ConnectAction => HashCode(id)
    case DisconnectAction => Wrap32(HashCode(id) as int + 1000)
  }

  function KeyOf(action: AlarmAction, id: string): AlarmKey
  {
    AlarmKey(RequestCode(action, id), action)
  }

  /** The connect and disconnect codes of one id never coincide. */
  lemma RequestCodesDiffer(id: string)
    ensures RequestCode(ConnectAction, id) != RequestCode(DisconnectAction, id)
  {
  }

  /** Every alarm sits under the key its own action and schedule id determine. */
  predicate AlarmsKeyed(alarms: map<AlarmKey, Alarm>)
  {
    forall k :: k in alarms ==> k == KeyOf(k.action, alarms[k].scheduleId)
  }

  /** Under AlarmsKeyed an id has at most one alarm of each kind. */
  lemma OneAlarmPerKindAndId(alarms: map<AlarmKey, Alarm>, k: AlarmKey, id: string)
    requires AlarmsKeyed(alarms)
    requires k in alarms && alarms[k].scheduleId == id
    ensures k == KeyOf(ConnectAction, id) || k == KeyOf(DisconnectAction, id)
  {
  }

  /** The alarms left after cancelling both of an id's pending intents. */
  function WithoutAlarmsOf(alarms: map<AlarmKey, Alarm>, id: string): map<AlarmKey, Alarm>
  {
    alarms - {KeyOf(ConnectAction, id), KeyOf(DisconnectAction, id)}
  }

  /** Cancelling both codes of an id leaves no alarm that would deliver that id. */
  lemma CancelledIdHasNoAlarm(alarms: map<AlarmKey, Alarm>, id: string)
    requires AlarmsKeyed(alarms)
    ensures AlarmsKeyed(WithoutAlarmsOf(alarms, id))
    ensures forall k :: k in WithoutAlarmsOf(alarms, id) ==> WithoutAlarmsOf(alarms, id)[k].scheduleId != id
  {
    forall k | k in WithoutAlarmsOf(alarms, id)
      ensures WithoutAlarmsOf(alarms, id)[k].scheduleId != id
    {
      if alarms[k].scheduleId == id {
        OneAlarmPerKindAndId(alarms, k, id);
      }
    }
  }

  // ---------------------------------------------------------------------------
  // The schedule store

  /** Position of the first stored schedule whose id equals `id` (a null id equals none). */
  function FirstIndexOf(list: seq<Schedule>, id: Option<string>): (r: Option<nat>)
    ensures r.Some? ==> r.value < |list| && Some(list[r.value].id) == id
                        && forall j :: 0 <= j < r.value ==> Some(list[j].id) != id
    ensures r.None? ==> forall j :: 0 <= j < |list| ==> Some(list[j].id) != id
  {
    if |list| == 0 then None
    else if Some(list[0].id) == id then Some(0)
    else match FirstIndexOf(list[1..], id)
      case Some(k) => Some(k + 1)
      case None => None
  }

  /** `getSchedule`: the first stored schedule with the id, if any. */
  function Lookup(list: seq<Schedule>, id: Option<string>): Option<Schedule>
  {
    match FirstIndexOf(list, id)
    case Some(k) => Some(list[k])
    case None => None
  }

  /** `saveSchedule`: replace the first entry with the same id in place, or append. */
  function Upsert(list: seq<Schedule>, s: Schedule): seq<Schedule>
  {
    match FirstIndexOf(list, Some(s.id))
    case Some(k) => list[k := s]
    case None => list + [s]
  }

  /** `removeSchedule`: every entry with the id dropped, the rest in their order. */
  function RemoveAll(list: seq<Schedule>, id: string): seq<Schedule>
  {
    if |list| == 0 then []
    else if list[|list| - 1].id == id then RemoveAll(list[..|list| - 1], id)
    else RemoveAll(list[..|list| - 1], id) + [list[|list| - 1]]
  }

  /** Upsert either replaces exactly one entry, the first with the id, or grows the list by one at the end. */
  lemma UpsertReplacesOrAppends(list: seq<Schedule>, s: Schedule)
    ensures (exists i :: 0 <= i < |list| && list[i].id == s.id) ==>
              var k := FirstIndexOf(list, Some(s.id)).value;
              |Upsert(list, s)| == |list| && Upsert(list, s)[k] == s
              && (forall j :: 0 <= j < |list| && j != k ==> Upsert(list, s)[j] == list[j])
              && (forall j :: 0 <= j < k ==> list[j].id != s.id)
    ensures (forall i :: 0 <= i < |list| ==> list[i].id != s.id) ==>
              Upsert(list, s) == list + [s]
  {
  }

  /** Saving then getting by the saved id yields the saved schedule. */
  lemma LookupAfterUpsert(list: seq<Schedule>, s: Schedule)
    ensures Lookup(Upsert(list, s), Some(s.id)) == Some(s)
  {
    var u := Upsert(list, s);
    match FirstIndexOf(list, Some(s.id))
    case Some(k) =>
      assert u[k] == s;
      assert forall j :: 0 <= j < k ==> u[j] == list[j];
    case None =>
      assert u[|list|] == s;
      assert forall j :: 0 <= j < |list| ==> u[j] == list[j];
  }

  /** Saving a schedule leaves what every other id looks up to unchanged. */
  lemma LookupOtherAfterUpsert(list: seq<Schedule>, s: Schedule, id: Option<string>)
    requires id != Some(s.id)
    ensures Lookup(Upsert(list, s), id) == Lookup(list, id)
  {
    var u := Upsert(list, s);
    assert forall j :: 0 <= j < |list| ==> (Some(u[j].id) == id <==> Some(list[j].id) == id);
    assert Some(u[|u| - 1].id) == id ==> |u| == |list| && Some(list[|u| - 1].id) == id;
    match FirstIndexOf(list, id)
    case Some(k) =>
      assert u[k] == list[k];
    case None =>
  }

  /** Saving the same schedule twice is the same as saving it once. */
  lemma UpsertIdempotent(list: seq<Schedule>, s: Schedule)
    ensures Upsert(Upsert(list, s), s) == Upsert(list, s)
  {
    var u := Upsert(list, s);
    match FirstIndexOf(list, Some(s.id))
    case Some(k) =>
      assert u[k] == s && forall j :: 0 <= j < k ==> u[j] == list[j];
      assert FirstIndexOf(u, Some(s.id)) == Some(k);
    case None =>
      assert u[|list|] == s && forall j :: 0 <= j < |list| ==> u[j] == list[j];
      assert FirstIndexOf(u, Some(s.id)) == Some(|list|);
  }

  /** RemoveAll keeps exactly the entries whose id differs. */
  lemma {:induction false} RemoveAllMembers(list: seq<Schedule>, id: string)
    ensures forall x :: x in RemoveAll(list, id) <==> x in list && x.id != id
  {
    if |list| > 0 {
      var init := list[..|list| - 1];
      RemoveAllMembers(init, id);
      assert list == init + [list[|list| - 1]];
    }
  }

  /** Removing distributes over concatenation: the kept entries stay in their order. */
  lemma {:induction false} RemoveAllConcat(a: seq<Schedule>, b: seq<Schedule>, id: string)
    ensures RemoveAll(a + b, id) == RemoveAll(a, id) + RemoveAll(b, id)
    decreases |b|
  {
    if |b| == 0 {
      assert a + b == a;
    } else {
      var initB := b[..|b| - 1];
      assert (a + b)[..|a + b| - 1] == a + initB;
      RemoveAllConcat(a, initB, id);
    }
  }

  /** Removing an id no entry carries leaves the list as it is. */
  lemma {:induction false} RemoveAllAbsent(list: seq<Schedule>, id: string)
    requires forall i :: 0 <= i < |list| ==> list[i].id != id
    ensures RemoveAll(list, id) == list
  {
    if |list| > 0 {
      var init := list[..|list| - 1];
      RemoveAllAbsent(init, id);
      assert list == init + [list[|list| - 1]];
    }
  }

  /** Removing twice is removing once. */
  lemma RemoveAllIdempotent(list: seq<Schedule>, id: string)
    ensures RemoveAll(RemoveAll(list, id), id) == RemoveAll(list, id)
  {
    var r := RemoveAll(list, id);
    RemoveAllMembers(list, id);
    assert forall i :: 0 <= i < |r| ==> r[i] in r;
    RemoveAllAbsent(r, id);
  }

  /** Looking up a removed id finds nothing. */
  lemma LookupAfterRemove(list: seq<Schedule>, id: string)
    ensures Lookup(RemoveAll(list, id), Some(id)).None?
  {
    var r := RemoveAll(list, id);
    RemoveAllMembers(list, id);
    assert forall i :: 0 <= i < |r| ==> r[i] in r;
  }

  /** Lookup on a list with one entry appended. */
  lemma LookupAppend(list: seq<Schedule>, x: Schedule, id: Option<string>)
    ensures Lookup(list + [x], id) ==
              if Lookup(list, id).Some? then Lookup(list, id)
              else if Some(x.id) == id then Some(x) else None
  {
    var l := list + [x];
    match FirstIndexOf(list, id)
    case Some(k) =>
      assert l[k] == list[k];
      assert forall j :: 0 <= j < k ==> l[j] == list[j];
    case None =>
      assert forall j :: 0 <= j < |list| ==> l[j] == list[j];
      assert l[|list|] == x;
  }

  /** Removing one id does not change what any other id looks up to. */
  lemma {:induction false} LookupOtherAfterRemove(list: seq<Schedule>, id: string, other: Option<string>)
    requires other != Some(id)
    ensures Lookup(RemoveAll(list, id), other) == Lookup(list, other)
  {
    if |list| > 0 {
      var init, x := list[..|list| - 1], list[|list| - 1];
      assert list == init + [x];
      LookupOtherAfterRemove(init, id, other);
      LookupAppend(init, x, other);
      if x.id != id {
        LookupAppend(RemoveAll(init, id), x, other);
      }
    }
  }

  // ---------------------------------------------------------------------------
  // Service state and its transitions

  /** What the service asks of the tunnel service. */
  datatype SessionRequest =
    | StartSession(config: Option<string>, name: Option<string>, username: Option<string>,
                   password: Option<string>, bypassPackages: Option<seq<string>>)
    | StopSession

  datatype ServiceState = ServiceState(
    schedules: seq<Schedule>,
    alarms: map<AlarmKey, Alarm>,
    requests: seq<SessionRequest>)

  /** The start request built from a stored schedule. */
  function StartRequestFor(s: Schedule): SessionRequest
  {
    StartSession(s.config, s.name, s.username, s.password, s.bypassPackages)
  }

  function Saved(st: ServiceState, s: Schedule): ServiceState
  {
    st.(schedules := Upsert(st.schedules, s))
  }

  /** `scheduleVpn`: save, then arm the connect alarm at the next connect time. */
  function Scheduled(st: ServiceState, s: Schedule, now: int): ServiceState
  {
    Saved(st, s).(alarms := st.alarms[KeyOf(ConnectAction, s.id) := Alarm(NextConnectTime(s, now), s.id)])
  }

  /** `scheduleDisconnect`: arm the disconnect alarm at the disconnect time. */
  function DisconnectArmed(st: ServiceState, s: Schedule): ServiceState
  {
    st.(alarms := st.alarms[KeyOf(DisconnectAction, s.id) := Alarm(s.disconnectTimeUTC, s.id)])
  }

  /** `cancelSchedule`: both alarms cancelled, every entry with the id removed. */
  function Cancelled(st: ServiceState, id: string): ServiceState
  {
    st.(schedules := RemoveAll(st.schedules, id), alarms := WithoutAlarmsOf(st.alarms, id))
  }

  /** `handleScheduledConnect`. */
  function ConnectFired(st: ServiceState, id: Option<string>): ServiceState
  {
    match Lookup(st.schedules, id)
    case None => st
    case Some(s) =>
      var started := st.(requests := st.requests + [StartRequestFor(s)]);
      if s.disconnectTimeUTC > 0 then DisconnectArmed(started, s) else started
  }

  /** `handleScheduledDisconnect`. */
  function DisconnectFired(st: ServiceState): ServiceState
  {
    st.(requests := st.requests + [StopSession])
  }

  lemma ScheduledKeepsAlarmsKeyed(st: ServiceState, s: Schedule, now: int)
    requires AlarmsKeyed(st.alarms)
    ensures AlarmsKeyed(Scheduled(st, s, now).alarms)
  {
  }

  lemma ConnectFiredKeepsAlarmsKeyed(st: ServiceState, id: Option<string>)
    requires AlarmsKeyed(st.alarms)
    ensures AlarmsKeyed(ConnectFired(st, id).alarms)
  {
  }

  /**
   * Scheduling stores the schedule so that it can be looked up, and arms
   * its connect alarm at the next connect time under `hash(id)`. Scheduling
   * the same id again replaces that alarm: the set of armed keys is the
   * same as after the first time.
   */
  lemma ScheduledArmsOneConnectAlarm(st: ServiceState, s: Schedule, now: int, s': Schedule, later: int)
    requires s'.id == s.id
    ensures Lookup(Scheduled(st, s, now).schedules, Some(s.id)) == Some(s)
    ensures Scheduled(st, s, now).alarms[KeyOf(ConnectAction, s.id)] == Alarm(NextConnectTime(s, now), s.id)
    ensures Scheduled(st, s, now).alarms.Keys == st.alarms.Keys + {KeyOf(ConnectAction, s.id)}
    ensures Scheduled(Scheduled(st, s, now), s', later).alarms.Keys == Scheduled(st, s, now).alarms.Keys
    ensures |Scheduled(Scheduled(st, s, now), s', later).schedules| == |Scheduled(st, s, now).schedules|
    ensures Scheduled(st, s, now).requests == st.requests
  {
    LookupAfterUpsert(st.schedules, s);
    var u := Upsert(st.schedules, s);
    assert u[FirstIndexOf(u, Some(s.id)).value] == s;
    UpsertReplacesOrAppends(u, s');
  }

  /** A one-shot schedule's connect alarm is armed at its connect time. */
  lemma OneShotAlarmAtConnectTime(st: ServiceState, s: Schedule, now: int)
    requires !s.isRecurring
    ensures Scheduled(st, s, now).alarms[KeyOf(ConnectAction, s.id)].triggerAtUTC == s.connectTimeUTC
  {
  }

  /**
   * Alarms are told apart by hash code, not by id: "Aa" and "BB" hash
   * alike, so scheduling "BB" replaces the pending connect alarm of "Aa",
   * which then delivers "BB".
   */
  lemma CollidingIdsShareConnectAlarm(st: ServiceState, s: Schedule, now: int)
    requires s.id == "BB"
    ensures KeyOf(ConnectAction, "Aa") == KeyOf(ConnectAction, "BB")
    ensures Scheduled(st, s, now).alarms[KeyOf(ConnectAction, "Aa")].scheduleId == "BB"
  {
    assert HashCode("A") == 65 && HashCode("B") == 66 by {
      assert "A"[..0] == "B"[..0] == [];
    }
    assert "Aa"[..1] == "A" && "BB"[..1] == "B";
    assert HashCode("Aa") == 2112 == HashCode("BB");
  }

  /**
   * Cancelling removes the id from the store and leaves no alarm that
   * would deliver it; other ids still look up as before; the requests are
   * untouched; cancelling again changes nothing.
   */
  lemma CancelledForgetsId(st: ServiceState, id: string, other: Option<string>)
    requires AlarmsKeyed(st.alarms)
    requires other != Some(id)
    ensures Lookup(Cancelled(st, id).schedules, Some(id)).None?
    ensures Lookup(Cancelled(st, id).schedules, other) == Lookup(st.schedules, other)
    ensures forall k :: k in Cancelled(st, id).alarms ==> Cancelled(st, id).alarms[k].scheduleId != id
    ensures Cancelled(st, id).requests == st.requests
    ensures Cancelled(Cancelled(st, id), id) == Cancelled(st, id)
  {
    LookupAfterRemove(st.schedules, id);
    LookupOtherAfterRemove(st.schedules, id, other);
    CancelledIdHasNoAlarm(st.alarms, id);
    RemoveAllIdempotent(st.schedules, id);
  }

  /** Cancelling an id that was never stored and has no alarm leaves the state as it is. */
  lemma CancelledUnknownId(st: ServiceState, id: string)
    requires forall i :: 0 <= i < |st.schedules| ==> st.schedules[i].id != id
    requires KeyOf(ConnectAction, id) !in st.alarms && KeyOf(DisconnectAction, id) !in st.alarms
    ensures Cancelled(st, id) == st
  {
    RemoveAllAbsent(st.schedules, id);
  }

  /**
   * A connect alarm for an id no longer stored does nothing. Otherwise it
   * sends one start request with the stored schedule's config, name,
   * credentials and bypass list, arms the disconnect alarm exactly when the
   * disconnect time is positive, and leaves the store alone.
   */
  lemma ConnectFiredEffect(st: ServiceState, id: Option<string>)
    ensures ConnectFired(st, id).schedules == st.schedules
    ensures Lookup(st.schedules, id).None? ==> ConnectFired(st, id) == st
    ensures Lookup(st.schedules, id).Some? ==>
              var s := Lookup(st.schedules, id).value;
              Some(s.id) == id
              && ConnectFired(st, id).requests == st.requests + [StartSession(s.config, s.name, s.username, s.password, s.bypassPackages)]
              && (s.disconnectTimeUTC > 0 ==>
                    ConnectFired(st, id).alarms == st.alarms[KeyOf(DisconnectAction, s.id) := Alarm(s.disconnectTimeUTC, s.id)])
              && (s.disconnectTimeUTC <= 0 ==> ConnectFired(st, id).alarms == st.alarms)
  {
  }

  /** A disconnect alarm sends one stop request and touches neither store nor alarms. */
  lemma DisconnectFiredEffect(st: ServiceState)
    ensures DisconnectFired(st).requests == st.requests + [StopSession]
    ensures DisconnectFired(st).schedules == st.schedules && DisconnectFired(st).alarms == st.alarms
  {
  }

  // ---------------------------------------------------------------------------
  // Intent dispatch

  const ActionScheduleConnect := "de.blinkt.openvpn.SCHEDULE_CONNECT"
  const ActionScheduleDisconnect := "de.blinkt.openvpn.SCHEDULE_DISCONNECT"

  /**
   * The parts of an intent the service reads: its action, the
   * `schedule_id` extra, the `action` extra, the serialised `schedule`
   * extra and the `scheduleId` extra.
   */
  datatype Intent = Intent(
    action: Option<string>,
    scheduleIdExtra: Option<string>,
    command: Option<string>,
    schedule: Option<Schedule>,
    cancelScheduleId: Option<string>)

  /** `onStartCommand`'s dispatch, tested in the source's order. */
  function Dispatched(st: ServiceState, intent: Option<Intent>, now: int): ServiceState
  {
    match intent
    case None => st
    case Some(it) =>
      if it.action == Some(ActionScheduleConnect) then ConnectFired(st, it.scheduleIdExtra)
      else if it.action == Some(ActionScheduleDisconnect) then DisconnectFired(st)
      else if it.command == Some("schedule") then
        (if it.schedule.Some? then Scheduled(st, it.schedule.value, now) else st)
      else if it.command == Some("cancel") then
        (if it.cancelScheduleId.Some? then Cancelled(st, it.cancelScheduleId.value) else st)
      else if it.command == Some("update") then
        (if it.schedule.Some? then Saved(st, it.schedule.value) else st)
      else st
  }

  /**
   * A null intent, a "schedule" request without a schedule and a "cancel"
   * request without an id change nothing; an "update" request saves without
   * arming any alarm; an alarm's action takes precedence over any command
   * extra.
   */
  lemma DispatchNoOps(st: ServiceState, it: Intent, now: int)
    ensures Dispatched(st, None, now) == st
    ensures it.action.None? && it.command == Some("schedule") && it.schedule.None? ==>
              Dispatched(st, Some(it), now) == st
    ensures it.action.None? && it.command == Some("cancel") && it.cancelScheduleId.None? ==>
              Dispatched(st, Some(it), now) == st
    ensures it.action.None? && it.command == Some("update") && it.schedule.Some? ==>
              Dispatched(st, Some(it), now).alarms == st.alarms
              && Dispatched(st, Some(it), now).schedules == Upsert(st.schedules, it.schedule.value)
    ensures it.action == Some(ActionScheduleConnect) ==>
              Dispatched(st, Some(it), now) == ConnectFired(st, it.scheduleIdExtra)
    ensures it.action.None? && it.command.None? ==> Dispatched(st, Some(it), now) == st
  {
  }

  /** The intent an armed alarm delivers: the alarm's action and its schedule id extra. */
  function AlarmIntent(key: AlarmKey, a: Alarm): Intent
  {
    var action := match key.action
      case ConnectAction => ActionScheduleConnect
      case DisconnectAction => ActionScheduleDisconnect;
    Intent(Some(action), Some(a.scheduleId), None, None, None)
  }

  /**
   * An exact alarm fires once: the alarm manager drops it, then the service
   * handles the intent it carries. A key with no armed alarm delivers nothing.
   */
  function Delivered(st: ServiceState, key: AlarmKey, now: int): ServiceState
  {
    if key !in st.alarms then st
    else Dispatched(st.(alarms := st.alarms - {key}), Some(AlarmIntent(key, st.alarms[key])), now)
  }

  /**
   * A delivered alarm is no longer armed, and alarms stay keyed. A connect
   * alarm runs the connect handler for its id over the remaining alarms; a
   * disconnect alarm sends one stop request and leaves the other alarms and
   * the store alone.
   */
  lemma DeliveredConsumesAlarm(st: ServiceState, key: AlarmKey, now: int)
    requires AlarmsKeyed(st.alarms) && key in st.alarms
    ensures key !in Delivered(st, key, now).alarms
    ensures AlarmsKeyed(Delivered(st, key, now).alarms)
    ensures key.action == ConnectAction ==>
              Delivered(st, key, now) == ConnectFired(st.(alarms := st.alarms - {key}), Some(st.alarms[key].scheduleId))
    ensures key.action == DisconnectAction ==>
              Delivered(st, key, now).requests == st.requests + [StopSession]
              && Delivered(st, key, now).alarms == st.alarms - {key}
              && Delivered(st, key, now).schedules == st.schedules
  {
    var rest := st.alarms - {key};
    assert AlarmsKeyed(rest);
    if key.action == ConnectAction {
      assert key != KeyOf(DisconnectAction, st.alarms[key].scheduleId);
      ConnectFiredKeepsAlarmsKeyed(st.(alarms := rest), Some(st.alarms[key].scheduleId));
    }
  }

  lemma DispatchKeepsAlarmsKeyed(st: ServiceState, intent: Option<Intent>, now: int)
    requires AlarmsKeyed(st.alarms)
    ensures AlarmsKeyed(Dispatched(st, intent, now).alarms)
  {
    if intent.Some? && intent.value.command == Some("cancel") && intent.value.cancelScheduleId.Some? {
      CancelledIdHasNoAlarm(st.alarms, intent.value.cancelScheduleId.value);
    }
  }

  // ---------------------------------------------------------------------------
  // The service object

  class VpnSchedulerService {
    /** The "schedules" entry of the shared preferences, deserialised. */
    var schedules: seq<Schedule>
    /** The alarms this app has registered with the alarm manager and that have not fired yet. */
    var alarms: map<AlarmKey, Alarm>
    /** The start and stop intents sent to the tunnel service, oldest first. */
    var requests: seq<SessionRequest>

    function State(): ServiceState
      reads this
    {
      ServiceState(schedules, alarms, requests)
    }

    ghost predicate Valid()
      reads this
    {
      AlarmsKeyed(alarms)
    }

    /** `onCreate`: the service starts over the persisted store and the alarms still registered. */
    constructor (persisted: seq<Schedule>, armed: map<AlarmKey, Alarm>)
      requires AlarmsKeyed(armed)
      ensures Valid() && State() == ServiceState(persisted, armed, [])
    {
      schedules, alarms, requests := persisted, armed, [];
    }

    /** `getAllSchedules`: the stored list. */
    method GetAllSchedules() returns (list: seq<Schedule>)
      ensures list == schedules
    {
      list := schedules;
    }

    /** `getSchedule`: scan in order, first match wins. */
    method GetSchedule(id: Option<string>) returns (r: Option<Schedule>)
      ensures r == Lookup(schedules, id)
      ensures r.Some? ==> r.value in schedules && Some(r.value.id) == id
    {
      var list := GetAllSchedules();
      var i := 0;
      while i < |list|
        invariant 0 <= i <= |list|
        invariant forall j :: 0 <= j < i ==> Some(list[j].id) != id
      {
        if Some(list[i].id) == id {
          return Some(list[i]);
        }
        i := i + 1;
      }
      return None;
    }

    /** `saveSchedule`: replace the first entry with the id, or append, then write the list back. */
    method SaveSchedule(s: Schedule)
      requires Valid()
      modifies this
      ensures Valid() && State() == Saved(old(State()), s)
    {
      var list := GetAllSchedules();
      var found := false;
      var i := 0;
      while i < |list|
        invariant 0 <= i <= |list|
        invariant list == schedules
        invariant forall j :: 0 <= j < i ==> list[j].id != s.id
      {
        if list[i].id == s.id {
          list := list[i := s];
          found := true;
          break;
        }
        i := i + 1;
      }
      if !found {
        list := list + [s];
      }
      schedules := list;
    }

    /** `removeSchedule`: walk the list, removing every entry with the id through the iterator. */
    method RemoveSchedule(id: string)
      requires Valid()
      modifies this
      ensures Valid() && State() == old(State()).(schedules := RemoveAll(old(schedules), id))
    {
      var list := GetAllSchedules();
      ghost var original := list;
      ghost var visited := 0;
      var i := 0;
      while i < |list|
        invariant 0 <= i <= |list| && 0 <= visited <= |original|
        invariant list[..i] == RemoveAll(original[..visited], id)
        invariant list[i..] == original[visited..]
        decreases |list| - i
      {
        assert original[..visited + 1] == original[..visited] + [original[visited]];
        assert list[i] == original[visited];
        if list[i].id == id {
          list := list[..i] + list[i + 1..];
        } else {
          i := i + 1;
        }
        visited := visited + 1;
      }
      assert original[..visited] == original;
      assert list == list[..i];
      schedules := list;
    }

    /** `scheduleDisconnect`: arm the disconnect alarm under `hash(id) + 1000`. */
    method ScheduleDisconnect(s: Schedule)
      requires Valid()
      modifies this
      ensures Valid() && State() == DisconnectArmed(old(State()), s)
    {
      alarms := alarms[KeyOf(DisconnectAction, s.id) := Alarm(s.disconnectTimeUTC, s.id)];
    }

    /** `scheduleVpn`: save, then arm the connect alarm under `hash(id)`. */
    method ScheduleVpn(schedule: VpnSchedule, now: int)
      requires Valid()
      modifies this
      ensures Valid() && State() == Scheduled(old(State()), schedule.Value(), now)
    {
      SaveSchedule(schedule.Value());
      var triggerTime;
      if schedule.isRecurring {
        triggerTime := schedule.GetNextConnectTime(now);
      } else {
        triggerTime := schedule.connectTimeUTC;
      }
      alarms := alarms[KeyOf(ConnectAction, schedule.id) := Alarm(triggerTime, schedule.id)];
    }

    /** `cancelSchedule`: cancel both pending intents of the id, then remove it from the store. */
    method CancelSchedule(id: string)
      requires Valid()
      modifies this
      ensures Valid() && State() == Cancelled(old(State()), id)
    {
      CancelledIdHasNoAlarm(alarms, id);
      alarms := alarms - {KeyOf(ConnectAction, id)};
      alarms := alarms - {KeyOf(DisconnectAction, id)};
      RemoveSchedule(id);
    }

    /** `handleScheduledConnect`. */
    method HandleScheduledConnect(id: Option<string>)
      requires Valid()
      modifies this
      ensures Valid() && State() == ConnectFired(old(State()), id)
    {
      var schedule := GetSchedule(id);
      if schedule.None? {
        return;
      }
      var s := schedule.value;
      requests := requests + [StartRequestFor(s)];
      if s.disconnectTimeUTC > 0 {
        ScheduleDisconnect(s);
      }
    }

    /** `handleScheduledDisconnect`. */
    method HandleScheduledDisconnect(id: Option<string>)
      requires Valid()
      modifies this
      ensures Valid() && State() == DisconnectFired(old(State()))
    {
      requests := requests + [StopSession];
    }

    /** The alarm manager firing the alarm under `key`: the alarm is dropped and its intent handed to `onStartCommand`. */
    method DeliverAlarm(key: AlarmKey, now: int)
      requires Valid()
      requires key in alarms ==> now >= alarms[key].triggerAtUTC
      modifies this
      ensures Valid() && State() == Delivered(old(State()), key, now)
    {
      if key in alarms {
        var alarm := alarms[key];
        alarms := alarms - {key};
        OnStartCommand(Some(AlarmIntent(key, alarm)), now);
      }
    }

    /** `onStartCommand`, the clock reading passed in as `now`. */
    method OnStartCommand(intent: Option<Intent>, now: int)
      requires Valid()
      modifies this
      ensures Valid() && State() == Dispatched(old(State()), intent, now)
    {
      if intent.None? {
        return;
      }
      var it := intent.value;
      if it.action == Some(ActionScheduleConnect) {
        HandleScheduledConnect(it.scheduleIdExtra);
      } else if it.action == Some(ActionScheduleDisconnect) {
        HandleScheduledDisconnect(it.scheduleIdExtra);
      } else if it.command == Some("schedule") {
        if it.schedule.Some? {
          var schedule := new VpnSchedule.Restore(it.schedule.value);
          ScheduleVpn(schedule, now);
        }
      } else if it.command == Some("cancel") {
        if it.cancelScheduleId.Some? {
          CancelSchedule(it.cancelScheduleId.value);
        }
      } else if it.command == Some("update") {
        if it.schedule.Some? {
          SaveSchedule(it.schedule.value);
        }
      }
    }
  }
}
