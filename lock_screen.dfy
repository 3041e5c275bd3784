/**
 * The lock screen (LockScreen component): the `m:ss` rendering of a number of
 * seconds, and the message chosen for each lock reason.
 */
module LockScreen {
  import opened Base
  import SessionGate

  // ---------------------------------------------------------------------------
  // Number rendering, as `Number.prototype.toString` prints an integral value

  /** Decimal digits of a natural number, most significant first, no leading zero. */
  function NatToString(n: nat): (s: string)
    ensures |s| >= 1 && AllDigits(s)
    ensures n < 10 <==> |s| == 1
    ensures n == 0 <==> s == "0"
    ensures n > 0 ==> s[0] != '0'
  {
    if n < 10 then [DigitChar(n)] else NatToString(n / 10) + [DigitChar(n % 10)]
  }

  /** An integer as JavaScript prints it: a leading '-' for negative values. */
  function IntToString(i: int): (s: string)
    ensures |s| >= 1
    ensures i >= 0 ==> s == NatToString(i)
  {
    if i < 0 then "-" + NatToString(-i) else NatToString(i)
  }

  /** `s.padStart(2, '0')`. */
  function PadStart2(s: string): (r: string)
    ensures |r| == if |s| >= 2 then |s| else 2
    ensures |s| >= 2 ==> r == s
    ensures |s| == 1 ==> r == "0" + s
    ensures |s| == 0 ==> r == "00"
  {
    if |s| >= 2 then s else if |s| == 1 then "0" + s else "00"
  }

  /** Value of a string of decimal digits. */
  function DecimalValue(s: string): nat
    requires AllDigits(s)
  {
    if |s| == 0 then 0
    else DecimalValue(s[..|s| - 1]) * 10 + ((s[|s| - 1] as int) - ('0' as int))
  }

  lemma {:induction false} DecimalRoundTrip(n: nat)
    ensures DecimalValue(NatToString(n)) == n
  {
    var s := NatToString(n);
    if n >= 10 {
      DecimalRoundTrip(n / 10);
      assert s[..|s| - 1] == NatToString(n / 10);
    }
  }

  // ---------------------------------------------------------------------------
  // formatTime

  /** `Math.trunc`. */
  function Trunc(x: real): int {
    if x >= 0.0 then x.Floor else -((-x).Floor)
  }

  /** JavaScript's `%` on numbers: the remainder takes the dividend's sign. */
  function JsRemainder(x: real, m: real): real
    requires m != 0.0
  {
    x - m * (Trunc(x / m) as real)
  }

  /**
   * formatTime: whole minutes, a colon, and the whole seconds of the minute
   * padded to two digits.
   */
  function FormatTime(seconds: real): (t: string)
    ensures seconds >= 0.0 ==>
              t == NatToString(seconds.Floor / 60) + ":" + PadStart2(NatToString(seconds.Floor % 60))
  {
    var mins := (seconds / 60.0).Floor;
    var secs := JsRemainder(seconds, 60.0).Floor;
    var t := IntToString(mins) + ":" + PadStart2(IntToString(secs));
    if seconds >= 0.0 then FloorSplit(seconds); t else t
  }

  /** Reads back an `m:ss` text: minutes times 60 plus seconds. */
  function ClockValue(t: string): Option<int> {
    if |t| >= 4 && t[|t| - 3] == ':' && AllDigits(t[..|t| - 3]) && AllDigits(t[|t| - 2..])
    then Some(DecimalValue(t[..|t| - 3]) * 60 + DecimalValue(t[|t| - 2..]))
    else None
  }

  /** The minute and second fields of a non-negative time. */
  lemma FloorSplit(seconds: real)
    requires seconds >= 0.0
    ensures (seconds / 60.0).Floor == seconds.Floor / 60
    ensures JsRemainder(seconds, 60.0).Floor == seconds.Floor % 60
  {
    var q := (seconds / 60.0).Floor;
    var n := seconds.Floor;
    assert Trunc(seconds / 60.0) == q;
    assert 60 * q <= n < 60 * q + 60 by {
      assert (q as real) <= seconds / 60.0 < (q as real) + 1.0;
      assert 60.0 * (q as real) <= seconds < 60.0 * (q as real) + 60.0;
    }
    assert n / 60 == q;
    var rem := seconds - 60.0 * (q as real);
    assert rem.Floor == n - 60 * q by {
      assert ((n - 60 * q) as real) <= rem < ((n - 60 * q) as real) + 1.0;
    }
  }

  /** Two-digit rendering of a second of the minute. */
  lemma TwoDigits(k: nat)
    requires k < 60
    ensures |PadStart2(NatToString(k))| == 2
    ensures AllDigits(PadStart2(NatToString(k)))
    ensures DecimalValue(PadStart2(NatToString(k))) == k
  {
    var s := PadStart2(NatToString(k));
    DecimalRoundTrip(k);
    if k < 10 {
      assert s == "0" + [DigitChar(k)];
      assert s[..1] == "0";
    } else {
      assert s == NatToString(k);
    }
  }

  /** An `m:ss` text splits back into its two fields. */
  lemma ClockParts(m: string, ss: string)
    requires |m| >= 1 && |ss| == 2 && AllDigits(m) && AllDigits(ss)
    ensures var t := m + ":" + ss;
            |t| >= 4 && t[|t| - 3] == ':' && t[..|t| - 3] == m && t[|t| - 2..] == ss
    ensures ClockValue(m + ":" + ss) == Some(DecimalValue(m) * 60 + DecimalValue(ss))
  {
    var t := m + ":" + ss;
    assert t[..|t| - 3] == m;
    assert t[|t| - 2..] == ss;
    assert t[|t| - 3] == ':';
    assert AllDigits(t[..|t| - 3]) && AllDigits(t[|t| - 2..]);
  }

  /** The text of `n` whole seconds as minutes, a colon and two second digits, and what it reads back as. */
  lemma ClockTextRoundTrip(n: nat)
    ensures var t := NatToString(n / 60) + ":" + PadStart2(NatToString(n % 60));
            |t| >= 4 && t[|t| - 3] == ':' && AllDigits(t[|t| - 2..]) &&
            0 <= DecimalValue(t[|t| - 2..]) < 60 && ClockValue(t) == Some(n)
  {
    var m := NatToString(n / 60);
    var ss := PadStart2(NatToString(n % 60));
    TwoDigits(n % 60);
    DecimalRoundTrip(n / 60);
    ClockParts(m, ss);
  }

  /**
   * For a non-negative time the seconds field is exactly two digits holding
   * 0..59, and the text reads back as the whole number of seconds.
   */
  lemma FormatTimeRoundTrip(seconds: real)
    requires seconds >= 0.0
    ensures var t := FormatTime(seconds);
            |t| >= 4 && t[|t| - 3] == ':' && AllDigits(t[|t| - 2..]) &&
            0 <= DecimalValue(t[|t| - 2..]) < 60
    ensures ClockValue(FormatTime(seconds)) == Some(seconds.Floor)
  {
    ClockTextRoundTrip(seconds.Floor);
  }

  // ---------------------------------------------------------------------------
  // getMessage and the reason-dependent extras

  datatype LockMessage = LockMessage(title: string, subtitle: string, emoji: string, detail: string)

  /** The message for a lock reason; only the unlocked fallback has no subtitle and no detail line. */
  function GetMessage(reason: Option<SessionGate.LockReason>, cooldownRemaining: real): (m: LockMessage)
    ensures reason.None? <==> m.subtitle == ""
    ensures reason.None? <==> m.detail == ""
  {
    match reason
    case Some(Session) => LockMessage("休息一下吧！", "本次练习完成啦～", "😊", "休息一会儿再来玩！")
    case Some(Daily) => LockMessage("今天练习完成啦！", "明天再来哦～", "🌙", "晚安，好好睡觉！")
    case Some(Cooldown) =>
      LockMessage("休息中...", "还要等 " + FormatTime(cooldownRemaining), "⏰", "先去玩点别的吧！")
    case None => LockMessage("休息一下", "", "😴", "")
  }

  /** The countdown block is rendered for a cooldown lock only. */
  predicate ShowsCountdown(reason: Option<SessionGate.LockReason>) {
    reason == Some(SessionGate.Cooldown)
  }

  /** The calendar block is rendered for a daily lock only. */
  predicate ShowsCalendar(reason: Option<SessionGate.LockReason>) {
    reason == Some(SessionGate.Daily)
  }

  /** Every reason but a cooldown has a message that ignores the remaining time. */
  lemma MessageFixedUnlessCooldown(reason: Option<SessionGate.LockReason>, c1: real, c2: real)
    requires reason != Some(SessionGate.Cooldown)
    ensures GetMessage(reason, c1) == GetMessage(reason, c2)
  {
    match reason
    case None =>
    case Some(r) =>
      match r
      case Session =>
      case Daily =>
  }

  /** The cooldown subtitle carries the formatted remaining time, after a fixed prefix. */
  lemma CooldownSubtitle(c: real)
    ensures var sub := GetMessage(Some(SessionGate.Cooldown), c).subtitle;
            |sub| >= 4 && sub[4..] == FormatTime(c)
  {
  }

  /** The features that tell the four titles apart: length, first and third characters. */
  predicate TitleShaped(t: string, reason: Option<SessionGate.LockReason>) {
    |t| >= 4 &&
    match reason
    case None => |t| == 4 && t[0] == '休'
    case Some(r) =>
      match r
      case Session => |t| == 6 && t[0] == '休' && t[2] == '一'
      case Daily => t[0] == '今'
      case Cooldown => |t| == 6 && t[0] == '休' && t[2] == '中'
  }

  lemma TitleShape(reason: Option<SessionGate.LockReason>, c: real)
    ensures TitleShaped(GetMessage(reason, c).title, reason)
  {
    match reason
    case None =>
    case Some(r) =>
      match r
      case Session =>
      case Daily =>
      case Cooldown =>
  }

  lemma ShapesDiffer(t1: string, t2: string, r1: Option<SessionGate.LockReason>, r2: Option<SessionGate.LockReason>)
    requires r1 != r2 && TitleShaped(t1, r1) && TitleShaped(t2, r2)
    ensures t1 != t2
  {
    match r1
    case None =>
    case Some(a) =>
      match r2
      case None =>
      case Some(b) =>
        assert a != b;
  }

  /** The four cases have four different titles, so the title identifies the reason. */
  lemma TitlesDistinct(r1: Option<SessionGate.LockReason>, r2: Option<SessionGate.LockReason>, c1: real, c2: real)
    requires r1 != r2
    ensures GetMessage(r1, c1).title != GetMessage(r2, c2).title
  {
    TitleShape(r1, c1);
    TitleShape(r2, c2);
    ShapesDiffer(GetMessage(r1, c1).title, GetMessage(r2, c2).title, r1, r2);
  }

  /** At most one of the two extra blocks is shown, and neither when unlocked. */
  lemma ExtrasExclusive(reason: Option<SessionGate.LockReason>)
    ensures !(ShowsCountdown(reason) && ShowsCalendar(reason))
    ensures reason.None? ==> !ShowsCountdown(reason) && !ShowsCalendar(reason)
  {
  }
}
