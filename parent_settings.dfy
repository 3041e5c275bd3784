/**
 * The parent settings page (ParentSettings): the PIN pad that guards it, and
 * the setting, rating-mode and unlock buttons behind it.
 *
 * A keypress that completes four digits arms a 200 ms check of exactly the
 * four digits typed; the armed checks are a queue that `PinCheckTimeout`
 * fires in order.
 */
module ParentSettings {
  import opened Base
  import StarRating
  import SessionGate

  const CorrectPin: string := "1234"

  const PinLength: nat := 4

  /** A key of the pad: a digit, `del`, or the blank (null) cell. */
  datatype Key = Digit(d: nat) | Del | Blank

  predicate ValidKey(k: Key) {
    k.Digit? ==> k.d < 10
  }

  /** The PIN buffer after one key. */
  function PressedPin(pin: string, key: Key): (r: string)
    requires ValidKey(key)
    ensures r <= pin || pin <= r
    ensures key.Digit? && |pin| < PinLength ==> r == pin + [DigitChar(key.d)]
    ensures key.Del? && |pin| > 0 ==> |r| == |pin| - 1
    ensures key.Blank? || (key.Digit? && |pin| >= PinLength) || (key.Del? && |pin| == 0) ==> r == pin
  {
    match key
    case Del => if |pin| == 0 then pin else pin[..|pin| - 1]
    case Digit(d) => if |pin| < PinLength then pin + [DigitChar(d)] else pin
    case Blank => pin
  }

  /** Whether the key completes four digits, which arms a check. */
  predicate ArmsCheck(pin: string, key: Key) {
    key.Digit? && |pin| + 1 == PinLength
  }

  /** The buffer only ever holds digits, at most four of them. */
  lemma PressedPinBounded(pin: string, key: Key)
    requires ValidKey(key) && |pin| <= PinLength && AllDigits(pin)
    ensures |PressedPin(pin, key)| <= PinLength && AllDigits(PressedPin(pin, key))
    ensures ArmsCheck(pin, key) <==> |pin| < PinLength && |PressedPin(pin, key)| == PinLength
  {
  }

  /** `del` undoes a digit, and on an empty buffer does nothing. */
  lemma DelUndoesDigit(pin: string, d: nat)
    requires d < 10 && |pin| < PinLength
    ensures PressedPin(PressedPin(pin, Digit(d)), Del) == pin
    ensures PressedPin("", Del) == ""
  {
  }

  /** A full buffer ignores digits; the blank cell never changes anything. */
  lemma FullOrBlankIgnored(pin: string, d: nat)
    requires d < 10 && |pin| >= PinLength
    ensures PressedPin(pin, Digit(d)) == pin && !ArmsCheck(pin, Blank)
    ensures PressedPin(pin, Blank) == pin
  {
  }

  /** The buffer after a sequence of keys. */
  function Typed(pin: string, keys: seq<Key>): string
    requires forall i :: 0 <= i < |keys| ==> ValidKey(keys[i])
    decreases |keys|
  {
    if |keys| == 0 then pin else Typed(PressedPin(pin, keys[0]), keys[1..])
  }

  predicate DigitKeys(keys: seq<Key>) {
    forall i :: 0 <= i < |keys| ==> keys[i].Digit? && keys[i].d < 10
  }

  /** The characters the digit keys print. */
  function KeyChars(keys: seq<Key>): (s: string)
    requires DigitKeys(keys)
    ensures |s| == |keys|
  {
    seq(|keys|, i requires 0 <= i < |keys| => DigitChar(keys[i].d))
  }

  /** Digits typed while there is room are appended in order. */
  lemma {:induction false} TypedDigits(pin: string, keys: seq<Key>)
    requires DigitKeys(keys) && |pin| + |keys| <= PinLength
    ensures Typed(pin, keys) == pin + KeyChars(keys)
    decreases |keys|
  {
    if |keys| > 0 {
      var next := PressedPin(pin, keys[0]);
      assert next == pin + [DigitChar(keys[0].d)];
      TypedDigits(next, keys[1..]);
      assert KeyChars(keys) == [DigitChar(keys[0].d)] + KeyChars(keys[1..]);
    }
  }

  /** Typing 1, 2, 3, 4 into an empty buffer spells the correct PIN. */
  lemma TypingCorrectPin()
    ensures Typed("", [Digit(1), Digit(2), Digit(3), Digit(4)]) == CorrectPin
  {
    var keys := [Digit(1), Digit(2), Digit(3), Digit(4)];
    TypedDigits("", keys);
    assert KeyChars(keys) == CorrectPin;
  }

  /** The verdict on a candidate PIN. */
  datatype PinVerdict = Unlock | Reject

  function CheckPin(candidate: string): (v: PinVerdict)
    ensures v == Unlock <==> candidate == CorrectPin
  {
    if candidate == CorrectPin then Unlock else Reject
  }

  /** The settings key a setting button names. */
  datatype SettingKey = SessionLimit | DailyLimit | ReminderInterval | CooldownTime

  /** `{ [key]: value }`: a patch naming one key. */
  function Patch(key: SettingKey, value: int): (p: SessionGate.PartialSettings)
    ensures (p.sessionLimit.Some? <==> key == SessionLimit) && (p.dailyLimit.Some? <==> key == DailyLimit)
    ensures (p.reminderInterval.Some? <==> key == ReminderInterval) && (p.cooldownTime.Some? <==> key == CooldownTime)
  {
    match key
    case SessionLimit => SessionGate.NoSettings.(sessionLimit := Some(value))
    case DailyLimit => SessionGate.NoSettings.(dailyLimit := Some(value))
    case ReminderInterval => SessionGate.NoSettings.(reminderInterval := Some(value))
    case CooldownTime => SessionGate.NoSettings.(cooldownTime := Some(value))
  }

  /** The value a settings record holds for a key. */
  function Setting(s: SessionGate.Settings, key: SettingKey): int {
    match key
    case SessionLimit => s.sessionLimit
    case DailyLimit => s.dailyLimit
    case ReminderInterval => s.reminderInterval
    case CooldownTime => s.cooldownTime
  }

  /** A setting change writes the named key and no other. */
  lemma PatchChangesOneKey(s: SessionGate.Settings, key: SettingKey, value: int, other: SettingKey)
    ensures Setting(SessionGate.Merge(s, Patch(key, value)), key) == value
    ensures other != key ==> Setting(SessionGate.Merge(s, Patch(key, value)), other) == Setting(s, other)
  {
  }

  class ParentSettingsPage {
    const gate: SessionGate.AntiAddiction

    var pin: string
    var isUnlocked: bool
    var showPinError: bool
    var showSaved: bool
    var currentRatingMode: StarRating.RatingMode
    /** The rating-mode slot of storage. */
    var storedMode: Option<string>
    /** The candidates of the armed 200 ms checks, oldest first. */
    var pendingChecks: seq<string>

    /** The buffer holds at most four digits and every armed check holds exactly four. */
    ghost predicate Valid()
      reads this, gate
    {
      |pin| <= PinLength && AllDigits(pin) &&
      (forall i :: 0 <= i < |pendingChecks| ==> |pendingChecks[i]| == PinLength && AllDigits(pendingChecks[i])) &&
      gate.Valid()
    }

    /** Mounting: a locked pad, and the rating mode read from storage. */
    constructor (storedRatingMode: Option<string>, record: Option<SessionGate.StoredData>,
                 settingsRecord: Option<SessionGate.PartialSettings>, today: Day, now: int)
      ensures Valid() && fresh(gate)
      ensures pin == "" && !isUnlocked && !showPinError && !showSaved && pendingChecks == []
      ensures storedMode == storedRatingMode && currentRatingMode == StarRating.LoadRatingMode(storedRatingMode)
      ensures gate.settings == SessionGate.GetSettings(settingsRecord)
    {
      gate := new SessionGate.AntiAddiction(record, settingsRecord, today, now);
      pin, isUnlocked, showPinError, showSaved := "", false, false, false;
      storedMode := storedRatingMode;
      currentRatingMode := StarRating.LoadRatingMode(storedRatingMode);
      pendingChecks := [];
    }

    /** The number pad's click handler; the pad is on screen only while locked. */
    method PressKey(key: Key)
      requires Valid() && ValidKey(key) && !isUnlocked
      modifies this
      ensures Valid()
      ensures pin == PressedPin(old(pin), key)
      ensures pendingChecks == old(pendingChecks) + (if ArmsCheck(old(pin), key) then [pin] else [])
      ensures isUnlocked == old(isUnlocked) && showPinError == old(showPinError) && showSaved == old(showSaved)
      ensures currentRatingMode == old(currentRatingMode) && storedMode == old(storedMode)
    {
      PressedPinBounded(pin, key);
      if key == Del {
        pin := PressedPin(pin, key);
      } else if key.Digit? && |pin| < PinLength {
        var newPin := pin + [DigitChar(key.d)];
        pin := newPin;
        if |newPin| == PinLength {
          pendingChecks := pendingChecks + [newPin];
        }
      }
    }

    /** The oldest armed check fires: the four digits it captured unlock or reject. */
    method PinCheckTimeout()
      requires Valid() && |pendingChecks| > 0
      modifies this
      ensures Valid()
      ensures pendingChecks == old(pendingChecks[1..])
      ensures CheckPin(old(pendingChecks[0])) == Unlock ==>
                isUnlocked && pin == old(pin) && showPinError == old(showPinError)
      ensures CheckPin(old(pendingChecks[0])) == Reject ==>
                isUnlocked == old(isUnlocked) && showPinError && pin == ""
      ensures showSaved == old(showSaved) && currentRatingMode == old(currentRatingMode) && storedMode == old(storedMode)
    {
      var candidate := pendingChecks[0];
      pendingChecks := pendingChecks[1..];
      if CheckPin(candidate) == Unlock {
        isUnlocked := true;
      } else {
        showPinError := true;
        pin := "";
      }
    }

    /** handlePinSubmit: the same verdict on the buffer as it stands, also clearing the error on success. */
    method HandlePinSubmit()
      requires Valid()
      modifies this
      ensures Valid()
      ensures CheckPin(old(pin)) == Unlock ==> isUnlocked && !showPinError && pin == old(pin)
      ensures CheckPin(old(pin)) == Reject ==> isUnlocked == old(isUnlocked) && showPinError && pin == ""
      ensures pendingChecks == old(pendingChecks) && showSaved == old(showSaved)
      ensures currentRatingMode == old(currentRatingMode) && storedMode == old(storedMode)
    {
      if CheckPin(pin) == Unlock {
        isUnlocked := true;
        showPinError := false;
      } else {
        showPinError := true;
        pin := "";
      }
    }

    /** handleSettingChange: the gate takes a one-key patch; the saved notice shows. */
    method HandleSettingChange(key: SettingKey, value: int)
      requires Valid()
      modifies this, gate
      ensures Valid() && showSaved
      ensures gate.settings == SessionGate.Merge(old(gate.settings), Patch(key, value))
      ensures Setting(gate.settings, key) == value
      ensures forall other :: other != key ==> Setting(gate.settings, other) == Setting(old(gate.settings), other)
      ensures gate.storedSettings == Some(SessionGate.AsPartial(gate.settings))
      ensures gate.storedRecord == old(gate.storedRecord) && gate.storedData == old(gate.storedData)
      ensures gate.state == old(gate.state)
      ensures gate.sessionStartTime == old(gate.sessionStartTime) && gate.currentSessionUsed == old(gate.currentSessionUsed)
      ensures pin == old(pin) && isUnlocked == old(isUnlocked) && pendingChecks == old(pendingChecks)
      ensures showPinError == old(showPinError) && currentRatingMode == old(currentRatingMode) && storedMode == old(storedMode)
    {
      gate.UpdateSettings(Patch(key, value));
      showSaved := true;
      forall other | other != key
        ensures Setting(gate.settings, other) == Setting(old(gate.settings), other)
      {
        PatchChangesOneKey(old(gate.settings), key, value, other);
      }
    }

    /** handleRatingModeChange: the mode is stored and shown; the saved notice shows. */
    method HandleRatingModeChange(mode: StarRating.RatingMode)
      requires Valid()
      modifies this
      ensures Valid() && showSaved
      ensures storedMode == StarRating.SaveRatingMode(mode) && currentRatingMode == mode
      ensures StarRating.LoadRatingMode(storedMode) == mode
      ensures pin == old(pin) && isUnlocked == old(isUnlocked) && pendingChecks == old(pendingChecks)
      ensures showPinError == old(showPinError)
    {
      storedMode := StarRating.SaveRatingMode(mode);
      currentRatingMode := mode;
      showSaved := true;
      StarRating.ModeRoundTrip(mode);
    }

    /** handleParentUnlock: lifts the cooldown through the gate; the saved notice shows. */
    method HandleParentUnlock(now: int)
      requires Valid()
      modifies this, gate
      ensures Valid() && showSaved
      ensures gate.storedData == SessionGate.UnlockedRecord(old(gate.storedData)) && gate.storedRecord == Some(gate.storedData)
      ensures gate.state == gate.Current(now) && gate.state.cooldownRemaining == 0.0
      ensures gate.settings == old(gate.settings) && gate.storedSettings == old(gate.storedSettings)
      ensures gate.sessionStartTime == old(gate.sessionStartTime) && gate.currentSessionUsed == old(gate.currentSessionUsed)
      ensures pin == old(pin) && isUnlocked == old(isUnlocked) && pendingChecks == old(pendingChecks)
      ensures showPinError == old(showPinError) && currentRatingMode == old(currentRatingMode) && storedMode == old(storedMode)
    {
      gate.ParentUnlock(now);
      showSaved := true;
    }

    /** The 1.5 s timer that hides the saved notice. */
    method SavedTimeout()
      requires Valid()
      modifies this
      ensures Valid() && !showSaved
      ensures pin == old(pin) && isUnlocked == old(isUnlocked) && pendingChecks == old(pendingChecks)
      ensures showPinError == old(showPinError) && currentRatingMode == old(currentRatingMode) && storedMode == old(storedMode)
    {
      showSaved := false;
    }
  }

  /** Typing 1, 2, 3, 4 on a fresh pad and letting the check fire unlocks the page. */
  method EnterCorrectPin(page: ParentSettingsPage)
    requires page.Valid() && page.pin == "" && page.pendingChecks == [] && !page.isUnlocked
    modifies page
    ensures page.isUnlocked && page.pendingChecks == []
  {
    page.PressKey(Digit(1));
    assert page.pin == "1";
    page.PressKey(Digit(2));
    assert page.pin == "12";
    page.PressKey(Digit(3));
    assert page.pin == "123";
    assert page.pendingChecks == [];
    page.PressKey(Digit(4));
    assert page.pin == CorrectPin;
    page.PinCheckTimeout();
  }
}
