/** The token refresh composable: a one-shot timer that re-arms itself after
    every successful refresh, measured from the last refresh time recorded
    under localStorage key 'last_token_refresh'.

    The browser's timer table is part of the model: `pending` maps the id of
    every armed timeout to its delay, and `nextId` is the id the next
    `setTimeout` returns (ids start at 1, so every id is truthy). The
    composable's own state is `refreshInterval`, the id it holds, or null. */
module TokenRefresh {
  import opened Common
  import opened Numeric
  import opened Storage

  const REFRESH_INTERVAL: nat := 3_600_000
  const LAST_REFRESH_KEY: string := "last_token_refresh"
  const TWO_31: nat := 0x8000_0000
  const TWO_32: nat := 0x1_0000_0000

  /** A delay in milliseconds as JavaScript computes it: a non-negative
      number, or NaN when the stored timestamp does not parse. */
  datatype Delay = Millis(ms: nat) | NaN

  /** `getNextRefreshDelay`: the time left until one interval has passed
      since the stored last refresh; 0 when nothing (or "") is stored. */
  function RefreshDelay(last: Option<string>, now: nat): (d: Delay)
    ensures !Truthy(last) ==> d == Millis(0)
    ensures Truthy(last) && ParseInt(last.value).None? ==> d == NaN
    ensures Truthy(last) && ParseInt(last.value).Some? ==>
      d.Millis? &&
      var t := ParseInt(last.value).value;
      && (t <= now ==> d.ms <= REFRESH_INTERVAL)
      && (now - t >= REFRESH_INTERVAL ==> d.ms == 0)
      && (now - t < REFRESH_INTERVAL ==> now + d.ms == t + REFRESH_INTERVAL)
  {
    if !Truthy(last) then Millis(0)
    else match ParseInt(last.value)
      case None => NaN
      case Some(t) =>
        var remaining := REFRESH_INTERVAL - (now - t);
        Millis(if remaining > 0 then remaining else 0)
  }

  /** What `getNextRefreshDelay` leaves in storage: it records `now` when no
      truthy timestamp is stored, and changes nothing otherwise. */
  function RecordStart(entries: map<string, string>, now: nat): (r: map<string, string>)
    ensures !Truthy(Lookup(entries, LAST_REFRESH_KEY)) ==> r == entries[LAST_REFRESH_KEY := NatToString(now)]
    ensures Truthy(Lookup(entries, LAST_REFRESH_KEY)) ==> r == entries
    ensures Truthy(Lookup(r, LAST_REFRESH_KEY))
  {
    if Truthy(Lookup(entries, LAST_REFRESH_KEY)) then entries
    else entries[LAST_REFRESH_KEY := NatToString(now)]
  }

  /** The delay `setTimeout` actually waits for a computed delay: the Web IDL
      `long` conversion (NaN to 0, then wrap-around modulo 2^32 into the
      signed 32-bit range) followed by clamping a negative value to 0. */
  function TimeoutDelay(d: Delay): (t: nat)
    ensures t < TWO_31
    ensures d.NaN? ==> t == 0
    ensures d.Millis? && d.ms < TWO_31 ==> t == d.ms
    ensures d.Millis? && TWO_31 <= d.ms < TWO_32 ==> t == 0
  {
    match d
    case NaN => 0
    case Millis(ms) =>
      var wrapped := ms % TWO_32;
      if wrapped < TWO_31 then wrapped else 0
  }

  /** The composable's state, the browser's timer table and localStorage. */
  datatype SchedulerView = SchedulerView(
    refreshInterval: Option<nat>,
    pending: map<nat, nat>,
    nextId: nat,
    entries: map<string, string>)

  /** Timer ids are issued in increasing order from 1, and no timer is armed
      except the one the composable holds: no timer has leaked. */
  predicate Consistent(v: SchedulerView)
  {
    && v.nextId >= 1
    && (v.refreshInterval.Some? ==> 1 <= v.refreshInterval.value < v.nextId)
    && (forall id :: id in v.pending ==> 1 <= id < v.nextId)
    && (forall id :: id in v.pending ==> v.refreshInterval == Some(id))
  }

  /** `if (refreshInterval) clearTimeout(refreshInterval)`. */
  function Disarm(v: SchedulerView): (r: SchedulerView)
    requires Consistent(v)
    ensures Consistent(r) && r.pending == map[]
    ensures r.refreshInterval == v.refreshInterval && r.nextId == v.nextId && r.entries == v.entries
  {
    if v.refreshInterval.Some? then v.(pending := v.pending - {v.refreshInterval.value}) else v
  }

  /** `scheduleNextRefresh`: compute the delay, disarm, arm a fresh timer. */
  function ScheduleSpec(v: SchedulerView, now: nat): (r: SchedulerView)
    requires Consistent(v)
    ensures Consistent(r)
    ensures r.refreshInterval == Some(v.nextId)
    ensures r.pending == map[v.nextId := TimeoutDelay(RefreshDelay(Lookup(v.entries, LAST_REFRESH_KEY), now))]
    ensures r.entries == RecordStart(v.entries, now)
  {
    var delay := RefreshDelay(Lookup(v.entries, LAST_REFRESH_KEY), now);
    var cleared := Disarm(v);
    SchedulerView(Some(v.nextId), cleared.pending[v.nextId := TimeoutDelay(delay)], v.nextId + 1,
                  RecordStart(v.entries, now))
  }

  /** `startTokenRefresh`: clear the held timer, then schedule. */
  function StartSpec(v: SchedulerView, now: nat): (r: SchedulerView)
    requires Consistent(v)
    ensures Consistent(r)
    ensures r == ScheduleSpec(v, now)
  {
    ScheduleSpec(Disarm(v), now)
  }

  /** The timer callback, once the armed timer has fired: refresh when the
      session has a token, record the time on success and re-arm; on failure
      clear the timer and stop. */
  function FireSpec(v: SchedulerView, now: nat, hasToken: bool, refreshOk: bool): (r: SchedulerView)
    requires Consistent(v) && v.refreshInterval.Some? && v.refreshInterval.value in v.pending
    ensures Consistent(r)
    ensures !hasToken ==>
      && r.entries == RecordStart(v.entries, now)
      && r.pending == map[v.nextId := TimeoutDelay(RefreshDelay(Lookup(v.entries, LAST_REFRESH_KEY), now))]
    ensures hasToken && refreshOk ==>
      && r.entries == v.entries[LAST_REFRESH_KEY := NatToString(now)]
      && r.refreshInterval == Some(v.nextId) && r.pending.Keys == {v.nextId}
    ensures hasToken && !refreshOk ==>
      r.refreshInterval == None && r.pending == map[] && r.entries == v.entries && r.nextId == v.nextId
  {
    var fired := v.(pending := v.pending - {v.refreshInterval.value});
    if !hasToken then ScheduleSpec(fired, now)
    else if refreshOk then ScheduleSpec(fired.(entries := fired.entries[LAST_REFRESH_KEY := NatToString(now)]), now)
    else Disarm(fired).(refreshInterval := None)
  }

  /** `stopTokenRefresh`. */
  function StopSpec(v: SchedulerView): (r: SchedulerView)
    requires Consistent(v)
    ensures Consistent(r)
    ensures r.refreshInterval == None && r.pending == map[]
    ensures r.entries == v.entries - {LAST_REFRESH_KEY} && LAST_REFRESH_KEY !in r.entries
  {
    Disarm(v).(refreshInterval := None, entries := v.entries - {LAST_REFRESH_KEY})
  }

  /** The `onMounted` hook: start only when the session has a token. */
  function MountSpec(v: SchedulerView, now: nat, hasToken: bool): (r: SchedulerView)
    requires Consistent(v)
    ensures Consistent(r)
    ensures hasToken ==> r == StartSpec(v, now)
    ensures !hasToken ==> r == v
  {
    if hasToken then StartSpec(v, now) else v
  }

  /** With no truthy timestamp stored, starting records `now` and arms a
      timer that fires at once. */
  lemma StartWithoutTimestamp(v: SchedulerView, now: nat)
    requires Consistent(v) && !Truthy(Lookup(v.entries, LAST_REFRESH_KEY))
    ensures var r := StartSpec(v, now);
      r.pending == map[v.nextId := 0] && Lookup(r.entries, LAST_REFRESH_KEY) == Some(NatToString(now))
  {
  }

  /** After a reload, starting with a timestamp the scheduler wrote at time t
      (with t <= now < t + interval) arms the timer for exactly the rest of
      the interval, so the next refresh comes one interval after t. */
  lemma {:induction false} StartResumesCadence(v: SchedulerView, t: nat, now: nat)
    requires Consistent(v)
    requires Lookup(v.entries, LAST_REFRESH_KEY) == Some(NatToString(t))
    requires t <= now < t + REFRESH_INTERVAL
    ensures StartSpec(v, now).pending == map[v.nextId := t + REFRESH_INTERVAL - now]
    ensures StartSpec(v, now).entries == v.entries
  {
    ParseIntOfNatToString(t);
  }

  /** A successful refresh records the firing time and re-arms for exactly
      one full interval. */
  lemma {:induction false} RefreshRearmsFullInterval(v: SchedulerView, now: nat)
    requires Consistent(v) && v.refreshInterval.Some? && v.refreshInterval.value in v.pending
    ensures var r := FireSpec(v, now, true, true);
      && Lookup(r.entries, LAST_REFRESH_KEY) == Some(NatToString(now))
      && r.pending == map[v.nextId := REFRESH_INTERVAL]
  {
    ParseIntOfNatToString(now);
  }

  /** Without a session token the callback refreshes nothing and keeps the
      old timestamp, yet re-arms on it: with a timestamp t <= now that is an
      interval or more old, the new timer fires at once, over and over. */
  lemma {:induction false} FireWithoutTokenRearmsOnOldTimestamp(v: SchedulerView, t: nat, now: nat)
    requires Consistent(v) && v.refreshInterval.Some? && v.refreshInterval.value in v.pending
    requires Lookup(v.entries, LAST_REFRESH_KEY) == Some(NatToString(t))
    requires t + REFRESH_INTERVAL <= now
    ensures var r := FireSpec(v, now, false, false);
      r.entries == v.entries && r.pending == map[v.nextId := 0]
  {
    ParseIntOfNatToString(t);
  }

  class TokenRefresher {
    var refreshInterval: Option<nat>
    var pending: map<nat, nat>
    var nextId: nat
    const storage: LocalStorage

    function View(): SchedulerView
      reads this, storage
    {
      SchedulerView(refreshInterval, pending, nextId, storage.entries)
    }

    predicate Valid()
      reads this, storage
    {
      Consistent(View())
    }

    constructor (storage: LocalStorage)
      ensures this.storage == storage && Valid()
      ensures View() == SchedulerView(None, map[], 1, storage.entries)
    {
      this.storage := storage;
      refreshInterval := None;
      pending := map[];
      nextId := 1;
    }

    /** The browser's `setTimeout`: arm a timer under a fresh id. */
    method SetTimeout(delay: Delay) returns (id: nat)
      modifies this
      ensures id == old(nextId) && nextId == old(nextId) + 1
      ensures pending == old(pending)[id := TimeoutDelay(delay)]
      ensures refreshInterval == old(refreshInterval)
    {
      id := nextId;
      pending := pending[id := TimeoutDelay(delay)];
      nextId := nextId + 1;
    }

    /** The browser's `clearTimeout` (and `clearInterval`, which shares its ids). */
    method ClearTimeout(id: nat)
      modifies this
      ensures pending == old(pending) - {id}
      ensures refreshInterval == old(refreshInterval) && nextId == old(nextId)
    {
      pending := pending - {id};
    }

    method GetNextRefreshDelay(now: nat) returns (delay: Delay)
      modifies storage
      ensures delay == RefreshDelay(old(storage.Get(LAST_REFRESH_KEY)), now)
      ensures storage.entries == RecordStart(old(storage.entries), now)
    {
      var lastRefresh := storage.Get(LAST_REFRESH_KEY);
      if !Truthy(lastRefresh) {
        storage.SetItem(LAST_REFRESH_KEY, NatToString(now));
        return Millis(0);
      }
      var lastRefreshTime := ParseInt(lastRefresh.value);
      if lastRefreshTime.None? {
        return NaN;
      }
      var remaining := REFRESH_INTERVAL - (now - lastRefreshTime.value);
      delay := Millis(if remaining > 0 then remaining else 0);
    }

    method ScheduleNextRefresh(now: nat)
      requires Valid()
      modifies this, storage
      ensures Valid() && View() == ScheduleSpec(old(View()), now)
    {
      var delay := GetNextRefreshDelay(now);
      if refreshInterval.Some? {
        ClearTimeout(refreshInterval.value);
      }
      var id := SetTimeout(delay);
      refreshInterval := Some(id);
    }

    method StartTokenRefresh(now: nat)
      requires Valid()
      modifies this, storage
      ensures Valid() && View() == StartSpec(old(View()), now)
    {
      if refreshInterval.Some? {
        ClearTimeout(refreshInterval.value);
      }
      ScheduleNextRefresh(now);
    }

    /** The armed timer fires; `hasToken` says whether the session holds a
        token at that moment and `refreshOk` whether the refresh succeeded. */
    method Fire(now: nat, hasToken: bool, refreshOk: bool)
      requires Valid() && refreshInterval.Some? && refreshInterval.value in pending
      modifies this, storage
      ensures Valid() && View() == FireSpec(old(View()), now, hasToken, refreshOk)
    {
      pending := pending - {refreshInterval.value};
      if hasToken {
        if !refreshOk {
          if refreshInterval.Some? {
            ClearTimeout(refreshInterval.value);
            refreshInterval := None;
          }
          return;
        }
        storage.SetItem(LAST_REFRESH_KEY, NatToString(now));
      }
      ScheduleNextRefresh(now);
    }

    method StopTokenRefresh()
      requires Valid()
      modifies this, storage
      ensures Valid() && View() == StopSpec(old(View()))
    {
      if refreshInterval.Some? {
        ClearTimeout(refreshInterval.value);
        refreshInterval := None;
      }
      storage.RemoveItem(LAST_REFRESH_KEY);
    }

    /** The `onMounted` hook. */
    method Mount(now: nat, hasToken: bool)
      requires Valid()
      modifies this, storage
      ensures Valid() && View() == MountSpec(old(View()), now, hasToken)
    {
      if hasToken {
        StartTokenRefresh(now);
      }
    }

    /** The `onUnmounted` hook. */
    method Unmount()
      requires Valid()
      modifies this, storage
      ensures Valid() && View() == StopSpec(old(View()))
    {
      StopTokenRefresh();
    }
  }
}
