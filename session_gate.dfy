/**
 * The session gate (useAntiAddiction): per-session and per-day usage limits and
 * a rest period after each session, recomputed from the stored usage record,
 * the settings, the start of the active session and the current time.
 *
 * Times are integer milliseconds since the epoch (`now` is Date.now()); the
 * stored usage and the limits are in seconds and minutes respectively.
 */
module SessionGate {
  import opened Base

  // ---------------------------------------------------------------------------
  // Settings

  /** Limits in minutes; the reminder interval in seconds. */
  datatype Settings = Settings(sessionLimit: int, dailyLimit: int, cooldownTime: int, reminderInterval: int)

  const DefaultSettings := Settings(8, 30, 20, 3)

  /** A record that may name only some of the keys (a parsed blob, or an update). */
  datatype PartialSettings = PartialSettings(
    sessionLimit: Option<int>, dailyLimit: Option<int>, cooldownTime: Option<int>, reminderInterval: Option<int>)

  const NoSettings := PartialSettings(None, None, None, None)

  /** The whole record, as `saveSettings` writes it. */
  function AsPartial(s: Settings): PartialSettings {
    PartialSettings(Some(s.sessionLimit), Some(s.dailyLimit), Some(s.cooldownTime), Some(s.reminderInterval))
  }

  /** `{ ...base, ...p }`: the keys `p` names override those of `base`. */
  function Merge(base: Settings, p: PartialSettings): (r: Settings)
    ensures p.sessionLimit.Some? ==> r.sessionLimit == p.sessionLimit.value
    ensures p.dailyLimit.Some? ==> r.dailyLimit == p.dailyLimit.value
    ensures p.cooldownTime.Some? ==> r.cooldownTime == p.cooldownTime.value
    ensures p.reminderInterval.Some? ==> r.reminderInterval == p.reminderInterval.value
  {
    Settings(p.sessionLimit.GetOr(base.sessionLimit), p.dailyLimit.GetOr(base.dailyLimit),
             p.cooldownTime.GetOr(base.cooldownTime), p.reminderInterval.GetOr(base.reminderInterval))
  }

  /** getSettings: the stored record over the defaults, or the defaults when nothing is stored. */
  function GetSettings(stored: Option<PartialSettings>): (r: Settings)
    ensures stored.None? ==> r == DefaultSettings
    ensures stored.Some? && stored.value.sessionLimit.None? ==> r.sessionLimit == 8
    ensures stored.Some? && stored.value.dailyLimit.None? ==> r.dailyLimit == 30
    ensures stored.Some? && stored.value.cooldownTime.None? ==> r.cooldownTime == 20
    ensures stored.Some? && stored.value.reminderInterval.None? ==> r.reminderInterval == 3
    ensures stored.Some? && stored.value.sessionLimit.Some? ==> r.sessionLimit == stored.value.sessionLimit.value
    ensures stored.Some? && stored.value.dailyLimit.Some? ==> r.dailyLimit == stored.value.dailyLimit.value
    ensures stored.Some? && stored.value.cooldownTime.Some? ==> r.cooldownTime == stored.value.cooldownTime.value
    ensures stored.Some? && stored.value.reminderInterval.Some? ==> r.reminderInterval == stored.value.reminderInterval.value
  {
    if stored.Some? then Merge(DefaultSettings, stored.value) else DefaultSettings
  }

  /** An update naming no key changes nothing; one naming every key replaces everything. */
  lemma MergeExtremes(base: Settings, s: Settings)
    ensures Merge(base, NoSettings) == base
    ensures Merge(base, AsPartial(s)) == s
  {
  }

  /** Applying the same update twice is applying it once. */
  lemma MergeIdempotent(base: Settings, p: PartialSettings)
    ensures Merge(Merge(base, p), p) == Merge(base, p)
  {
  }

  /** A key the update does not name keeps its old value. */
  lemma MergeKeepsUnnamed(base: Settings, p: PartialSettings)
    ensures p.sessionLimit.None? ==> Merge(base, p).sessionLimit == base.sessionLimit
    ensures p.dailyLimit.None? ==> Merge(base, p).dailyLimit == base.dailyLimit
    ensures p.cooldownTime.None? ==> Merge(base, p).cooldownTime == base.cooldownTime
    ensures p.reminderInterval.None? ==> Merge(base, p).reminderInterval == base.reminderInterval
  {
  }

  /** Saved settings read back unchanged. */
  lemma SettingsRoundTrip(s: Settings)
    ensures GetSettings(Some(AsPartial(s))) == s
  {
  }

  // ---------------------------------------------------------------------------
  // The stored usage record

  datatype StoredData = StoredData(todayUsed: int, lastDate: Day, lastSessionEnd: Option<int>, parentUnlocked: bool)

  function EmptyRecord(today: Day): StoredData {
    StoredData(0, today, None, false)
  }

  /** getStoredData: a record of another day (or none) reads as an empty record of today. */
  function GetStoredData(stored: Option<StoredData>, today: Day): (r: StoredData)
    ensures r.lastDate == today
    ensures stored.Some? && stored.value.lastDate == today ==> r == stored.value
    ensures stored.None? || stored.value.lastDate != today ==>
              r.todayUsed == 0 && r.lastSessionEnd.None? && !r.parentUnlocked
  {
    if stored.Some? && stored.value.lastDate == today then stored.value else EmptyRecord(today)
  }

  /** Storing what was read and reading again on the same day gives the same record. */
  lemma GetStoredDataStable(stored: Option<StoredData>, today: Day)
    ensures GetStoredData(Some(GetStoredData(stored, today)), today) == GetStoredData(stored, today)
  {
  }

  // ---------------------------------------------------------------------------
  // calculateState

  datatype LockReason = Session | Daily | Cooldown

  datatype GateState = GateState(
    isLocked: bool,
    lockReason: Option<LockReason>,
    remainingSessionTime: int,  // seconds
    remainingDailyTime: int,    // seconds
    cooldownRemaining: real,    // seconds, not rounded
    todayUsed: int,             // seconds
    canPlay: bool)

  /**
   * The rest period still to wait. The guard is JavaScript truthiness: a
   * session-end stamp of 0 counts as absent.
   */
  function CooldownRemaining(settings: Settings, data: StoredData, now: int): (c: real)
    ensures c >= 0.0
  {
    if data.lastSessionEnd.Some? && data.lastSessionEnd.value != 0 && !data.parentUnlocked then
      var sinceLastSession := (now - data.lastSessionEnd.value) as real / 1000.0;
      MaxReal(0.0, (settings.cooldownTime * 60) as real - sinceLastSession)
    else 0.0
  }

  /**
   * calculateState. `sessionStart` is the start of the active session (none
   * when no session is open); `currentSessionUsed` the whole seconds of it
   * that the last tick counted.
   */
  function CalculateState(settings: Settings, data: StoredData, sessionStart: Option<int>,
                          currentSessionUsed: int, now: int): (r: GateState)
    ensures r.remainingDailyTime >= 0 && r.remainingSessionTime >= 0 && r.cooldownRemaining >= 0.0
    ensures r.canPlay == !r.isLocked
    ensures r.lockReason.None? <==> !r.isLocked
    ensures r.todayUsed == data.todayUsed + currentSessionUsed
    ensures data.lastSessionEnd.None? || data.parentUnlocked ==> r.cooldownRemaining == 0.0
  {
    var totalUsedToday := data.todayUsed + currentSessionUsed;
    var remainingDaily := Max(0, settings.dailyLimit * 60 - totalUsedToday);
    var remainingSession := Max(0, settings.sessionLimit * 60 - currentSessionUsed);
    var cooldown := CooldownRemaining(settings, data, now);
    var reason :=
      if remainingDaily <= 0 then Some(Daily)
      else if cooldown > 0.0 && sessionStart.None? then Some(Cooldown)
      else if remainingSession <= 0 && sessionStart.Some? then Some(Session)
      else None;
    GateState(reason.Some?, reason, remainingSession, remainingDaily, cooldown, totalUsedToday, reason.None?)
  }

  /** The rest period is running: a real session-end stamp, no parent override, time not yet served. */
  predicate CoolingDown(settings: Settings, data: StoredData, now: int) {
    data.lastSessionEnd.Some? && data.lastSessionEnd.value != 0 && !data.parentUnlocked &&
    now - data.lastSessionEnd.value < settings.cooldownTime * 60000
  }

  lemma CooldownPositiveIff(settings: Settings, data: StoredData, now: int)
    ensures CooldownRemaining(settings, data, now) > 0.0 <==> CoolingDown(settings, data, now)
  {
  }

  /**
   * Lock precedence on the raw inputs: the daily limit wins, then the rest
   * period (only outside a session), then the session limit (only inside one).
   */
  lemma LockPrecedence(settings: Settings, data: StoredData, sessionStart: Option<int>, used: int, now: int)
    ensures var r := CalculateState(settings, data, sessionStart, used, now);
            r.lockReason == Some(Daily) <==> data.todayUsed + used >= settings.dailyLimit * 60
    ensures var r := CalculateState(settings, data, sessionStart, used, now);
            r.lockReason == Some(Cooldown) <==>
              data.todayUsed + used < settings.dailyLimit * 60 && sessionStart.None? &&
              CoolingDown(settings, data, now)
    ensures var r := CalculateState(settings, data, sessionStart, used, now);
            r.lockReason == Some(Session) <==>
              data.todayUsed + used < settings.dailyLimit * 60 && sessionStart.Some? &&
              used >= settings.sessionLimit * 60
    ensures var r := CalculateState(settings, data, sessionStart, used, now);
            r.canPlay <==>
              data.todayUsed + used < settings.dailyLimit * 60 &&
              (sessionStart.None? ==> !CoolingDown(settings, data, now)) &&
              (sessionStart.Some? ==> used < settings.sessionLimit * 60)
  {
    CooldownPositiveIff(settings, data, now);
  }

  /**
   * With the default limits, nothing used earlier today and a session open for
   * `used` seconds, the session lock comes at the eight-minute mark and not before.
   */
  lemma SessionLockAtEightMinutes(data: StoredData, start: int, used: int, now: int)
    requires data.todayUsed == 0 && 0 <= used < 1800
    ensures var r := CalculateState(DefaultSettings, data, Some(start), used, now);
            (r.lockReason == Some(Session) <==> used >= 480) && (r.canPlay <==> used < 480)
  {
    LockPrecedence(DefaultSettings, data, Some(start), used, now);
  }

  /** A session that ended ten minutes ago under a twenty-minute rest leaves 600 seconds to wait. */
  lemma CooldownTenMinutesIn(settings: Settings, data: StoredData, now: int)
    requires settings.cooldownTime == 20 && data.todayUsed < settings.dailyLimit * 60
    requires data.lastSessionEnd == Some(now - 600000) && now != 600000 && !data.parentUnlocked
    ensures var r := CalculateState(settings, data, None, 0, now);
            r.cooldownRemaining == 600.0 && r.lockReason == Some(Cooldown) && !r.canPlay
  {
  }

  /** The record parentUnlock writes. */
  function UnlockedRecord(data: StoredData): StoredData {
    data.(parentUnlocked := true, lastSessionEnd := None)
  }

  /** After a parent unlock the rest period is zero, whatever came before. */
  lemma ParentUnlockClearsCooldown(settings: Settings, data: StoredData, sessionStart: Option<int>, used: int, now: int)
    ensures CalculateState(settings, UnlockedRecord(data), sessionStart, used, now).cooldownRemaining == 0.0
    ensures CalculateState(settings, UnlockedRecord(data), sessionStart, used, now).lockReason != Some(Cooldown)
  {
  }

  /** The record endSession writes for a session opened at `start`. */
  function EndedRecord(data: StoredData, start: int, now: int): StoredData {
    data.(todayUsed := data.todayUsed + (now - start) / 1000, lastSessionEnd := Some(now), parentUnlocked := false)
  }

  /**
   * Right after a session ends, a positive rest period under the daily limit
   * locks the gate for the whole rest period.
   */
  lemma EndSessionStartsCooldown(settings: Settings, data: StoredData, start: int, now: int)
    requires now != 0 && settings.cooldownTime > 0
    requires EndedRecord(data, start, now).todayUsed < settings.dailyLimit * 60
    ensures var r := CalculateState(settings, EndedRecord(data, start, now), None, 0, now);
            r.lockReason == Some(Cooldown) && r.cooldownRemaining == (settings.cooldownTime * 60) as real
  {
  }

  // ---------------------------------------------------------------------------
  // The hook's state and its operations

  class AntiAddiction {
    /** The persisted slots (`speakbuddy_antiaddiction`, `speakbuddy_settings`); `None` when absent. */
    var storedRecord: Option<StoredData>
    var storedSettings: Option<PartialSettings>

    var settings: Settings
    var storedData: StoredData
    var sessionStartTime: Option<int>
    var currentSessionUsed: int
    /** The last published state. */
    var state: GateState

    /** No session, no session time. */
    ghost predicate Valid()
      reads this
    {
      sessionStartTime.None? ==> currentSessionUsed == 0
    }

    /** The state recomputed from the current fields. */
    function Current(now: int): GateState
      reads this
    {
      CalculateState(settings, storedData, sessionStartTime, currentSessionUsed, now)
    }

    constructor (record: Option<StoredData>, settingsRecord: Option<PartialSettings>, today: Day, now: int)
      ensures Valid()
      ensures storedRecord == record && storedSettings == settingsRecord
      ensures settings == GetSettings(settingsRecord) && storedData == GetStoredData(record, today)
      ensures sessionStartTime.None? && currentSessionUsed == 0
      ensures state == Current(now)
    {
      storedRecord := record;
      storedSettings := settingsRecord;
      settings := GetSettings(settingsRecord);
      storedData := GetStoredData(record, today);
      sessionStartTime := None;
      currentSessionUsed := 0;
      new;
      state := Current(now);
    }

    /** The once-a-second tick: count the whole seconds of the open session, then publish. */
    method Tick(now: int)
      requires Valid()
      modifies this
      ensures Valid()
      ensures currentSessionUsed ==
                if old(sessionStartTime).Some? then (now - old(sessionStartTime).value) / 1000
                else old(currentSessionUsed)
      ensures state == Current(now)
      ensures storedRecord == old(storedRecord) && storedSettings == old(storedSettings)
      ensures settings == old(settings) && storedData == old(storedData)
      ensures sessionStartTime == old(sessionStartTime)
    {
      if sessionStartTime.Some? {
        currentSessionUsed := (now - sessionStartTime.value) / 1000;
      }
      state := Current(now);
    }

    /** updateTime: publish the recomputed state. */
    method UpdateTime(now: int)
      modifies this`state
      ensures state == Current(now)
    {
      state := Current(now);
    }

    /**
     * startSession: opens a session only when the gate lets the child play;
     * then the stored record (read afresh, so a new day rolls over) loses its
     * parent override.
     */
    method StartSession(now: int, today: Day)
      requires Valid()
      modifies this
      ensures Valid()
      ensures old(Current(now)).canPlay ==>
                sessionStartTime == Some(now) && currentSessionUsed == 0 &&
                storedData == GetStoredData(old(storedRecord), today).(parentUnlocked := false) &&
                storedRecord == Some(storedData)
      ensures !old(Current(now)).canPlay ==>
                sessionStartTime == old(sessionStartTime) && currentSessionUsed == old(currentSessionUsed) &&
                storedData == old(storedData) && storedRecord == old(storedRecord)
      ensures settings == old(settings) && storedSettings == old(storedSettings) && state == old(state)
    {
      var current := Current(now);
      if current.canPlay {
        sessionStartTime := Some(now);
        currentSessionUsed := 0;
        var newData := GetStoredData(storedRecord, today).(parentUnlocked := false);
        storedData := newData;
        storedRecord := Some(newData);
      }
    }

    /**
     * What endSession leaves behind: an open session is folded into the record,
     * which is saved; with none open the record is untouched. Either way no
     * session is open afterwards, and the settings and the published state are kept.
     */
    twostate predicate SessionEnded(now: int)
      reads this
    {
      (old(sessionStartTime).Some? ==>
         storedData == EndedRecord(old(storedData), old(sessionStartTime).value, now) &&
         storedRecord == Some(storedData)) &&
      (old(sessionStartTime).None? ==> storedData == old(storedData) && storedRecord == old(storedRecord)) &&
      sessionStartTime.None? && currentSessionUsed == 0 &&
      settings == old(settings) && storedSettings == old(storedSettings) && state == old(state)
    }

    /**
     * endSession: folds the whole seconds of the open session into today's
     * usage and stamps the end; nothing happens when no session is open.
     */
    method EndSession(now: int)
      requires Valid()
      modifies this
      ensures Valid() && SessionEnded(now)
    {
      if sessionStartTime.Some? {
        var newData := EndedRecord(storedData, sessionStartTime.value, now);
        storedData := newData;
        storedRecord := Some(newData);
        sessionStartTime := None;
        currentSessionUsed := 0;
      }
    }

    /** parentUnlock: sets the override, drops the session-end stamp and publishes at once. */
    method ParentUnlock(now: int)
      requires Valid()
      modifies this
      ensures Valid()
      ensures storedData == UnlockedRecord(old(storedData)) && storedRecord == Some(storedData)
      ensures state == Current(now) && state.cooldownRemaining == 0.0
      ensures settings == old(settings) && storedSettings == old(storedSettings)
      ensures sessionStartTime == old(sessionStartTime) && currentSessionUsed == old(currentSessionUsed)
    {
      var newData := storedData.(parentUnlocked := true, lastSessionEnd := None);
      storedData := newData;
      storedRecord := Some(newData);
      state := Current(now);
    }

    /** updateSettings: overwrite the named keys and persist the whole record. */
    method UpdateSettings(p: PartialSettings)
      requires Valid()
      modifies this
      ensures Valid()
      ensures settings == Merge(old(settings), p) && storedSettings == Some(AsPartial(settings))
      ensures storedRecord == old(storedRecord) && storedData == old(storedData) && state == old(state)
      ensures sessionStartTime == old(sessionStartTime) && currentSessionUsed == old(currentSessionUsed)
    {
      var updated := Merge(settings, p);
      settings := updated;
      storedSettings := Some(AsPartial(updated));
    }
  }
}
