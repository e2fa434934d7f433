/**
 * The sync indicator (`SyncStatus`): how long ago the last sync was, in
 * whole minutes or hours, and the colour, icon, label and "Auto" badge.
 * Times are milliseconds since the epoch; the clock is a parameter.
 */
module SyncStatus {
  import opened Wrappers
  import opened Text

  const MINUTE_MS: int := 60000
  const HOUR_MS: int := 3600000

  /** The elapsed-time buckets the indicator distinguishes. */
  datatype Elapsed = LessThanMinute | OneMinute | Minutes(minutes: nat) | OneHour | Hours(hours: nat)

  /**
   * `Math.floor(diffMs / 60000)` and then `Math.floor(minutes / 60)`, sorted
   * into the buckets. Dafny's division by a positive constant rounds down, as
   * `Math.floor` does, negative differences included.
   */
  function ElapsedBucket(diffMs: int): (r: Elapsed)
    ensures r == LessThanMinute <==> diffMs < MINUTE_MS
    ensures r == OneMinute <==> MINUTE_MS <= diffMs < 2 * MINUTE_MS
    ensures r.Minutes? <==> 2 * MINUTE_MS <= diffMs < HOUR_MS
    ensures r.Minutes? ==> 2 <= r.minutes < 60 && r.minutes * MINUTE_MS <= diffMs < (r.minutes + 1) * MINUTE_MS
    ensures r == OneHour <==> HOUR_MS <= diffMs < 2 * HOUR_MS
    ensures r.Hours? ==> r.hours >= 2 && r.hours * HOUR_MS <= diffMs < (r.hours + 1) * HOUR_MS
  {
    var minutes := diffMs / MINUTE_MS;
    assert minutes * MINUTE_MS <= diffMs < (minutes + 1) * MINUTE_MS;
    if minutes < 1 then LessThanMinute
    else if minutes == 1 then OneMinute
    else if minutes < 60 then Minutes(minutes)
    else
      var hours := minutes / 60;
      assert hours * 60 <= minutes < (hours + 1) * 60;
      assert hours * HOUR_MS <= diffMs < (hours + 1) * HOUR_MS by {
        assert hours * HOUR_MS == hours * 60 * MINUTE_MS;
        assert (hours + 1) * HOUR_MS == (hours + 1) * 60 * MINUTE_MS;
        assert (hours * 60) * MINUTE_MS <= minutes * MINUTE_MS;
        assert (minutes + 1) * MINUTE_MS <= ((hours + 1) * 60) * MINUTE_MS;
      }
      if hours == 1 then OneHour else Hours(hours)
  }

  /** The Spanish text of a bucket. */
  function Render(e: Elapsed): string {
    match e
    case LessThanMinute => "hace menos de 1 minuto"
    case OneMinute => "hace 1 minuto"
    case Minutes(n) => "hace " + NatToString(n) + " minutos"
    case OneHour => "hace 1 hora"
    case Hours(n) => "hace " + NatToString(n) + " horas"
  }

  /** Different minute counts read differently. */
  lemma RenderMinutesInjective(m: nat, n: nat)
    requires Render(Minutes(m)) == Render(Minutes(n))
    ensures m == n
  {
    var a := NatToString(m);
    var b := NatToString(n);
    assert |a| == |b|;
    assert a == Render(Minutes(m))[5..5 + |a|];
    assert b == Render(Minutes(n))[5..5 + |b|];
    NatToStringInjective(m, n);
  }

  /** `getTimeSinceSync`: nothing without a last sync, otherwise the text of the elapsed bucket. */
  function TimeSinceSync(lastSyncTime: Option<int>, now: int): (r: Option<string>)
    ensures r.None? <==> lastSyncTime.None?
    ensures r.Some? ==> r.value == Render(ElapsedBucket(now - lastSyncTime.value))
    ensures r.Some? && now - lastSyncTime.value < MINUTE_MS ==> r.value == "hace menos de 1 minuto"
  {
    match lastSyncTime
    case None => None
    case Some(t) => Some(Render(ElapsedBucket(now - t)))
  }

  datatype Color = Yellow | Gray | Green | Blue

  /** `getStatusColor`: loading first, then no sync yet, then auto-sync, then the default. */
  function StatusColor(isLoading: bool, lastSyncTime: Option<int>, autoSyncEnabled: bool): (r: Color)
    ensures r == Yellow <==> isLoading
    ensures r == Gray <==> !isLoading && lastSyncTime.None?
    ensures r == Green <==> !isLoading && lastSyncTime.Some? && autoSyncEnabled
    ensures r == Blue <==> !isLoading && lastSyncTime.Some? && !autoSyncEnabled
  {
    if isLoading then Yellow
    else if lastSyncTime.None? then Gray
    else if autoSyncEnabled then Green
    else Blue
  }

  datatype Icon = Spinner | Pulse | Clock

  /** `getStatusIcon` */
  function StatusIcon(isLoading: bool, autoSyncEnabled: bool): Icon {
    if isLoading then Spinner else if autoSyncEnabled then Pulse else Clock
  }

  /** The label: "Sincronizando..." while loading, then the elapsed time, then "Sin sincronizar". */
  function StatusLabel(isLoading: bool, lastSyncTime: Option<int>, now: int): (r: string)
    ensures isLoading ==> r == "Sincronizando..."
    ensures !isLoading && lastSyncTime.None? ==> r == "Sin sincronizar"
    ensures !isLoading && lastSyncTime.Some? ==> r == "Sync: " + TimeSinceSync(lastSyncTime, now).value
  {
    if isLoading then "Sincronizando..."
    else match TimeSinceSync(lastSyncTime, now)
      case Some(text) => "Sync: " + text
      case None => "Sin sincronizar"
  }

  /** The "Auto" badge. */
  predicate ShowsAutoBadge(isLoading: bool, autoSyncEnabled: bool) {
    autoSyncEnabled && !isLoading
  }

  /** The badge shows exactly when the pulsing icon does, and then the colour is green once there has been a sync. */
  lemma BadgeAgreesWithIcon(isLoading: bool, autoSyncEnabled: bool, lastSyncTime: Option<int>)
    ensures ShowsAutoBadge(isLoading, autoSyncEnabled) <==> StatusIcon(isLoading, autoSyncEnabled) == Pulse
    ensures ShowsAutoBadge(isLoading, autoSyncEnabled) && lastSyncTime.Some? ==>
              StatusColor(isLoading, lastSyncTime, autoSyncEnabled) == Green
  {
  }
}
