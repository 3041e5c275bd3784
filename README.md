# Supperkids speech-practice core, modelled in Dafny

Supperkids (SpeakBuddy) is a speech-practice web app for toddlers. A training run
shows a shuffled deck of word cards. For each card the app speaks a demo, then the
child presses the microphone and says the word. A voice-activity monitor decides
whether sustained sound above a threshold was heard. A star rating grades the
utterance, and a soft-failure rule lets the child pass after three misses. Finished
cards become stars in a rewards ledger. An anti-addiction gate limits each session
and each day, and enforces a rest period between sessions. A lock screen explains why
play is blocked. A PIN-guarded parent page changes the limits and the rating mode, and
can lift a rest period.

This project models that core and proves properties of the model:

| file | module | what it models |
|---|---|---|
| `base.dfy` | `Base` | `Option`, `Math.max`/`Math.min`, decimal digits |
| `star_rating.dfy` | `StarRating` | the rating mode's storage and the star thresholds |
| `session_gate.dfy` | `SessionGate` | settings and usage record in storage, `calculateState`, and the hook's state as the class `AntiAddiction` |
| `lock_screen.dfy` | `LockScreen` | `formatTime`, and the message for each lock reason |
| `voice_detection.dfy` | `VoiceDetection` | the per-frame monitor as pure event functions, and the class `VoiceDetector` proved to follow them |
| `words.dfy` | `Words` | `shuffleWords`: a Fisher–Yates loop on an `array` copy |
| `training.dfy` | `Training` | the training page as the class `TrainingPage`, which owns a `VoiceDetector` and an `AntiAddiction` |
| `rewards.dfy` | `Rewards` | the star ledger, the achievement badges, the sticker row, and the page's completion hand-off |
| `parent_settings.dfy` | `ParentSettings` | the PIN pad and the settings page as the class `ParentSettingsPage` |

How the model treats the environment:

- **Time.** Wall-clock time is a parameter `now` in milliseconds. A calendar day is an
  opaque `Day` compared for equality.
- **Storage.** Each `localStorage` slot is a field or parameter of type `Option<…>`.
  `None` means the key is absent.
- **Timers.** Every timer firing, every animation frame and every finished-speaking
  callback is an explicit method call, applied in order.
- **Randomness.** `Math.random` is an oracle: a sequence of draws, each in [0, 1).
- **Microphone.** Whether `getUserMedia` succeeds is the parameter `granted`. Each
  frame's analyser reading is one normalised amplitude sample.
- **Method contracts.** Every method of a class is specified against a pure function of
  the old state. The class `VoiceDetector`, for example, ensures
  `Snapshot() == Frame(options, old(Snapshot()), now, sample)`. The properties are then
  proved as lemmas about those functions.

Where the code and its design notes differ, the model follows the code:

- The rest period's guard uses JavaScript truthiness, so a session-end stamp of `0`
  counts as no stamp.
- The remaining rest time is not rounded.
- `stopRecording` has no guard. It recomputes the average only when samples were
  collected.
- The auto-stop on silence needs speech to have begun. The silence timer is declared
  but never armed.

## Model

| member | source | states |
|---|---|---|
| `Base.Max` | src/hooks/useAntiAddiction.ts:101-102 | `Math.max` bounds both arguments and is one of them |
| `Base.MaxReal` | src/hooks/useAntiAddiction.ts:108 | `Math.max` on reals bounds both arguments and is one of them |
| `Base.Min` | src/pages/Rewards.tsx:155 | `Math.min` is below both arguments and is one of them |
| `Base.MinReal` | src/hooks/useStarRating.ts:36 | `Math.min` on reals is below both arguments and is one of them |
| `Base.DigitChar` | src/pages/ParentSettings.tsx:118 | a digit prints as one decimal digit character of that value |
| `StarRating.SaveRatingMode` | src/hooks/useStarRating.ts:28-32 | setting the mode always writes the storage slot |
| `StarRating.LoadRatingMode` | src/hooks/useStarRating.ts:18-26 | a non-easy result comes only from that mode's stored name; a stored valid name is read back as that mode; anything else reads as easy |
| `StarRating.ModeRoundTrip` | src/hooks/useStarRating.ts:18-32 | reading back a saved mode gives that mode |
| `StarRating.Clamp01` | src/hooks/useStarRating.ts:36 | the clamped volume lies in [0, 1] and equals the input when already there |
| `StarRating.CalculateStarRating` | src/hooks/useStarRating.ts:34-73 | always 1 to 3 stars; easy mode always gives 3 |
| `StarRating.StandardThresholds` | src/hooks/useStarRating.ts:45-56 | standard mode: 3 stars iff volume ≥ 0.15 and duration ≥ 800 ms; 2 iff not that but ≥ 0.08 and ≥ 500 ms; 1 otherwise (all three as iff) |
| `StarRating.StrictThresholds` | src/hooks/useStarRating.ts:59-70 | strict mode: 3 iff ≥ 0.25 and ≥ 1200 ms; 2 iff not that but ≥ 0.15 and ≥ 800 ms; 1 otherwise |
| `StarRating.LoudVolumesRateAlike` | src/hooks/useStarRating.ts:36 | any volume above 1 rates exactly as volume 1 |
| `StarRating.FeedbackFollowsStars` | src/hooks/useStarRating.ts:54-68 | within one mode the feedback text depends only on the star count |
| `StarRating.StarsMonotone` | src/hooks/useStarRating.ts:45-70 | louder or longer speech never earns fewer stars |
| `StarRating.ModesOrdered` | src/hooks/useStarRating.ts:39-70 | for the same utterance, strict ≤ standard ≤ easy |
| `SessionGate.Merge` | src/hooks/useAntiAddiction.ts:196 | in `{ ...base, ...p }` every key the patch names takes the patch's value (the unnamed keys are `MergeKeepsUnnamed`) |
| `SessionGate.GetSettings` | src/hooks/useAntiAddiction.ts:76-82 | no stored settings gives the defaults 8/30/20/3; each key the stored record names keeps its stored value, and each key it lacks takes its default |
| `SessionGate.MergeExtremes` | src/hooks/useAntiAddiction.ts:195-199 | an update naming no key changes nothing; one naming every key replaces all |
| `SessionGate.MergeIdempotent` | src/hooks/useAntiAddiction.ts:196 | applying the same update twice equals applying it once |
| `SessionGate.MergeKeepsUnnamed` | src/hooks/useAntiAddiction.ts:196 | a key the update does not name keeps its old value |
| `SessionGate.SettingsRoundTrip` | src/hooks/useAntiAddiction.ts:76-86 | saved settings read back unchanged |
| `SessionGate.GetStoredData` | src/hooks/useAntiAddiction.ts:46-70 | the record is dated today; a same-day record reads back unchanged; a missing or older record reads as zero usage, no end stamp, no override |
| `SessionGate.GetStoredDataStable` | src/hooks/useAntiAddiction.ts:46-74 | storing what was read and reading again the same day gives the same record |
| `SessionGate.CooldownRemaining` | src/hooks/useAntiAddiction.ts:105-109 | the rest time still to wait is never negative |
| `SessionGate.CalculateState` | src/hooks/useAntiAddiction.ts:94-135 | remaining times are non-negative; canPlay is the negation of isLocked; a lock reason is present iff locked; todayUsed is stored plus current; no stamp or a parent override means no rest time |
| `SessionGate.CooldownPositiveIff` | src/hooks/useAntiAddiction.ts:105-109 | rest time is positive iff there is a truthy end stamp, no override, and less than cooldownTime minutes have passed |
| `SessionGate.LockPrecedence` | src/hooks/useAntiAddiction.ts:111-134 | on raw inputs: daily iff today's total reaches the limit; cooldown iff under it, no session open and resting; session iff under it, a session open and over the session limit; canPlay iff none of these holds |
| `SessionGate.SessionLockAtEightMinutes` | src/hooks/useAntiAddiction.ts:96-124 | with the defaults and a fresh day, an open session locks exactly from 480 s |
| `SessionGate.CooldownTenMinutesIn` | src/hooks/useAntiAddiction.ts:105-120 | ten minutes into a twenty-minute rest, 600 s remain and the gate is locked for cooldown |
| `SessionGate.ParentUnlockClearsCooldown` | src/hooks/useAntiAddiction.ts:184-193 | after the unlock record the rest time is 0 and cooldown is never the lock reason |
| `SessionGate.EndSessionStartsCooldown` | src/hooks/useAntiAddiction.ts:164-172 | right after a session ends under the daily limit, the gate locks for cooldown with the full rest period |
| `SessionGate.AntiAddiction.constructor` | src/hooks/useAntiAddiction.ts:88-137 | settings and record come from storage; no session; the published state is computed from them |
| `SessionGate.AntiAddiction.Tick` | src/hooks/useAntiAddiction.ts:140-150 | an open session's whole elapsed seconds are counted, then the state is published; nothing stored changes |
| `SessionGate.AntiAddiction.UpdateTime` | src/hooks/useAntiAddiction.ts:180-182 | the published state is recomputed |
| `SessionGate.AntiAddiction.StartSession` | src/hooks/useAntiAddiction.ts:152-162 | only when play is allowed: session opened now, time reset, stored record re-read (rolling over a new day) without its override and saved; otherwise nothing changes |
| `SessionGate.AntiAddiction.EndSession` | src/hooks/useAntiAddiction.ts:164-178 | `SessionEnded`: with a session open, the record takes the elapsed whole seconds, the end stamp and a dropped override, and is saved; with none open the record is untouched; afterwards no session is open, and settings and the published state are kept |
| `SessionGate.AntiAddiction.ParentUnlock` | src/hooks/useAntiAddiction.ts:184-193 | override set, stamp dropped, record saved, state published with zero rest time |
| `SessionGate.AntiAddiction.UpdateSettings` | src/hooks/useAntiAddiction.ts:195-199 | the settings become the merge of the old ones and the update, and are saved whole; nothing else changes |
| `LockScreen.NatToString` | src/components/LockScreen.tsx:14 | decimal rendering is non-empty and only digits, one character exactly below 10, "0" exactly for zero, and no leading zero otherwise |
| `LockScreen.IntToString` | src/components/LockScreen.tsx:12-14 | a non-negative integer prints as its decimal digits |
| `LockScreen.PadStart2` | src/components/LockScreen.tsx:14 | text of two or more characters is kept; shorter text gets zeros prepended up to two characters |
| `LockScreen.DecimalRoundTrip` | src/components/LockScreen.tsx:14 | the printed digits of n read back as n |
| `LockScreen.FloorSplit` | src/components/LockScreen.tsx:12-13 | for non-negative seconds the minute field is ⌊s⌋ div 60 and the second field is ⌊s⌋ mod 60 |
| `LockScreen.TwoDigits` | src/components/LockScreen.tsx:14 | a second of the minute prints as exactly two digits that read back as itself |
| `LockScreen.FormatTime` | src/components/LockScreen.tsx:11-15 | for non-negative seconds the floating floor and remainder give the integer fields ⌊s⌋ div 60 and ⌊s⌋ mod 60, the latter padded to two digits |
| `LockScreen.ClockTextRoundTrip` | src/components/LockScreen.tsx:11-15 | the text of n whole seconds is minutes, a colon and two digits in 0..59, and reads back as n |
| `LockScreen.FormatTimeRoundTrip` | src/components/LockScreen.tsx:11-15 | for non-negative seconds the text is minutes, ':', two digits in 0..59, and reads back as ⌊s⌋ seconds |
| `LockScreen.ClockParts` | src/components/LockScreen.tsx:11-15 | a text of minute digits, a colon and two digits reads back as minutes × 60 plus the seconds |
| `LockScreen.GetMessage` | src/components/LockScreen.tsx:18-48 | only the unlocked fallback has an empty subtitle and an empty detail line; every lock reason has both |
| `LockScreen.MessageFixedUnlessCooldown` | src/components/LockScreen.tsx:18-48 | every reason but cooldown has a message that ignores the remaining time |
| `LockScreen.CooldownSubtitle` | src/components/LockScreen.tsx:34-40 | the cooldown subtitle is a fixed prefix followed by the formatted remaining time |
| `LockScreen.TitlesDistinct` | src/components/LockScreen.tsx:18-48 | the four cases have four different titles |
| `LockScreen.TitleShape` | src/components/LockScreen.tsx:18-48 | each title has the length and its leading characters for its lock reason |
| `LockScreen.ShapesDiffer` | src/components/LockScreen.tsx:18-48 | titles shaped for two different reasons are different texts |
| `LockScreen.ExtrasExclusive` | src/components/LockScreen.tsx:107-129 | the countdown shows only for cooldown and the calendar only for daily, never both |
| `VoiceDetection.Sum` | src/hooks/useVoiceDetection.ts:90 | the reduce starts from 0: no samples sum to 0 |
| `VoiceDetection.SumNonNegative` | src/hooks/useVoiceDetection.ts:90 | non-negative samples have a non-negative sum |
| `VoiceDetection.SumBounds` | src/hooks/useVoiceDetection.ts:90 | a sum of n samples in (lo, hi] lies in (n·lo, n·hi] |
| `VoiceDetection.Mean` | src/hooks/useVoiceDetection.ts:89-92 | the average times the number of samples is their sum |
| `VoiceDetection.MeanBounds` | src/hooks/useVoiceDetection.ts:89-92 | the mean of samples in (lo, hi] lies in (lo, hi] |
| `VoiceDetection.Start` | src/hooks/useVoiceDetection.ts:99-129 | a no-op while recording; on a granted microphone detection, duration, average, samples and speech start are reset, the start and last-sound times are now, permission is true and the hard cap and first frame are armed; on a denied one exactly the permission flag changes, to false |
| `VoiceDetection.Stop` | src/hooks/useVoiceDetection.ts:62-97 | idle, silent, no timer or frame pending; the average becomes the samples' mean when there are samples and is kept otherwise; detection, samples and duration are kept |
| `VoiceDetection.Frame` | src/hooks/useVoiceDetection.ts:134-181 | a no-op once stopped; samples only grow and detection is never cleared; a loud frame keeps recording, shows the volume, appends the sample, stamps the last sound and keeps or sets the speech start; the first loud frame keeps the duration, later ones set it to the time since the speech start and detect once it reaches the minimum; a quiet frame keeps samples, speech start and detection, stops exactly when speech began and the silence lasted the timeout, and shows the sample while recording and 0 once stopped |
| `VoiceDetection.MaxDurationElapsed` | src/hooks/useVoiceDetection.ts:127-129 | an armed hard cap stops the recording; a cleared one does nothing |
| `VoiceDetection.Toggle` | src/hooks/useVoiceDetection.ts:190-196 | stops while recording, starts otherwise |
| `VoiceDetection.InitialInv` | src/hooks/useVoiceDetection.ts:31-47 | the initial monitor satisfies the invariant |
| `VoiceDetection.InvPreserved` | src/hooks/useVoiceDetection.ts:62-196 | start, frame, stop, hard cap and toggle keep the invariant: recording means the hard cap is armed; idle means nothing is pending; every sample is above the threshold |
| `VoiceDetection.Run` | src/hooks/useVoiceDetection.ts:134-181 | no frames or a stopped monitor change nothing; the samples grow by at most one per frame, keeping the earlier ones as a prefix |
| `VoiceDetection.RunInv` | src/hooks/useVoiceDetection.ts:134-181 | the frame loop keeps the invariant |
| `VoiceDetection.HardCapAlwaysStops` | src/hooks/useVoiceDetection.ts:126-129 | every recording can be ended by its hard cap |
| `VoiceDetection.AverageAboveThreshold` | src/hooks/useVoiceDetection.ts:89-92 | once sound was heard, the reported average lies above the threshold and at most 1 |
| `VoiceDetection.StopIdempotent` | src/hooks/useVoiceDetection.ts:62-97 | stopping twice equals stopping once |
| `VoiceDetection.DetectionOnlyWhileRecording` | src/hooks/useVoiceDetection.ts:154-162 | a frame turns detection on only while recording, on a loud sample, after speech began, at least minDuration after it |
| `VoiceDetection.DetectionSticky` | src/hooks/useVoiceDetection.ts:144-181 | once detected, any frames and the stop keep it detected |
| `VoiceDetection.SilenceStopIff` | src/hooks/useVoiceDetection.ts:163-171 | a frame ends the recording iff it is quiet, speech has begun, and the silence has lasted silenceTimeout |
| `VoiceDetection.NoSpeechNoAutoStop` | src/hooks/useVoiceDetection.ts:163-171 | before any speech, quiet frames never stop the recording, collect nothing, and detect nothing |
| `VoiceDetection.LoudRun` | src/hooks/useVoiceDetection.ts:144-162 | loud frames after speech began at t0 keep recording, collect one sample each, measure duration from t0 to the last frame, and detect once that reaches minDuration |
| `VoiceDetection.SustainedSoundDetected` | src/hooks/useVoiceDetection.ts:144-162 | from a fresh recording, loud frames spanning minDuration end detected and still recording |
| `VoiceDetection.StartForgetsPreviousRecording` | src/hooks/useVoiceDetection.ts:117-124 | a fresh start does not depend on what the previous recording left behind |
| `VoiceDetection.VoiceDetector.constructor` | src/hooks/useVoiceDetection.ts:23-47 | the options are given; the state is the initial monitor |
| `VoiceDetection.VoiceDetector.StopRecording` | src/hooks/useVoiceDetection.ts:62-97 | the fields become `Stop` of the old fields |
| `VoiceDetection.VoiceDetector.StartRecording` | src/hooks/useVoiceDetection.ts:99-129 | the fields become `Start` of the old fields |
| `VoiceDetection.VoiceDetector.AnalyzeVolume` | src/hooks/useVoiceDetection.ts:134-181 | the fields become `Frame` of the old fields |
| `VoiceDetection.VoiceDetector.MaxDurationTimeout` | src/hooks/useVoiceDetection.ts:127-129 | the fields become `MaxDurationElapsed` of the old fields |
| `VoiceDetection.VoiceDetector.ToggleRecording` | src/hooks/useVoiceDetection.ts:190-196 | the fields become `Toggle` of the old fields |
| `VoiceDetection.VoiceDetector.RunFrames` | src/hooks/useVoiceDetection.ts:180-183 | the self-rescheduling loop leaves the fields at `Run` of the old fields over the frames |
| `Words.BelowOneTimes` | src/data/words.ts:93 | a draw in [0, 1) times n > 0 lies in [0, n) |
| `Words.SwapPartner` | src/data/words.ts:93 | the swap partner j satisfies 0 ≤ j ≤ i |
| `Words.SwapPermutes` | src/data/words.ts:94 | a swap keeps the length and the multiset |
| `Words.PassProperties` | src/data/words.ts:92-95 | the iterations from i down to 1 keep length and multiset, and never touch a position above i |
| `Words.PassStep` | src/data/words.ts:92-95 | after one swap of the loop, the remaining iterations still reach the shuffle, and position i already holds its final element |
| `Words.Shuffled` | src/data/words.ts:90-97 | the shuffle keeps the length and leaves lists of at most one word as they are |
| `Words.ShuffledPermutes` | src/data/words.ts:90-97 | the shuffle is a permutation of its input |
| `Words.ShuffleWords` | src/data/words.ts:90-97 | the loop on a copy yields the reference shuffle, a permutation of the same length; lists of length 0 or 1 come back unchanged |
| `Training.AttemptOutcome` | src/pages/Training.tsx:157-183 | attempts stay below 3; success iff detected or this was the third miss; a miss otherwise goes back to prompt-hold with one more attempt; success resets attempts, with the rating's stars if detected and 3 if forced |
| `Training.MissesCount` | src/pages/Training.tsx:168-183 | after any number k of undetected recordings in a row the counter is k mod 3, and a miss is let through exactly when it is the third of a round |
| `Training.ThirdMissSucceeds` | src/pages/Training.tsx:168-178 | two misses return to prompt-hold, and the third forces success with 3 stars and attempts 0 |
| `Training.AfterRecording` | src/pages/Training.tsx:153-154 | recording completion does nothing unless the page is recording |
| `Training.AfterRecordingKeepsBounds` | src/pages/Training.tsx:164-178 | recording completion keeps attempts below 3 and the earned stars in 1..3 |
| `Training.TrainingPage.constructor` | src/pages/Training.tsx:22-80 | the deck is the shuffle of the words; the mode is read once; the monitor uses 400/0.05/6000/2000 ms; the page starts idle on card 0 with 3 stars; a session is opened now exactly when the gate lets the child play |
| `Training.TrainingPage.SecretTap` | src/pages/Training.tsx:51-69 | each tap counts and re-arms the reset timer; the fifth resets the count, ends the session as `SessionEnded` states (record folded and saved, settings kept) and opens the parent page |
| `Training.TrainingPage.SecretTapTimeout` | src/pages/Training.tsx:58-60 | the armed timer resets the tap count |
| `Training.TrainingPage.PlayDemo` | src/pages/Training.tsx:123-128 | starts the demo only from idle or prompt-hold, else changes nothing |
| `Training.TrainingPage.IdleTimeout` | src/pages/Training.tsx:89-97 | the 500 ms timer plays the demo only if the page is still idle |
| `Training.TrainingPage.DemoFinished` | src/pages/Training.tsx:129-134 | playing stops; the page moves to prompt-hold only if the demo is still showing |
| `Training.TrainingPage.RecordingComplete` | src/pages/Training.tsx:153-185 | the page becomes `AfterRecording` of its old state, given the monitor's detection, average and duration and the page's mode |
| `Training.TrainingPage.RecorderStopped` | src/pages/Training.tsx:115-121 | completes the recording only if the page is recording and the monitor has stopped |
| `Training.TrainingPage.ToggleRecording` | src/pages/Training.tsx:137-151 | nothing while play is forbidden; a running recording is stopped then completed; from prompt-hold a recording starts; otherwise nothing |
| `Training.TrainingPage.PressStart` | src/pages/Training.tsx:188-195 | starts a recording only from prompt-hold while play is allowed |
| `Training.TrainingPage.PressEnd` | src/pages/Training.tsx:197-202 | while recording, stops the monitor and completes; otherwise nothing |
| `Training.TrainingPage.EncouragementTimeout` | src/pages/Training.tsx:182 | the toast hides, nothing else changes |
| `Training.TrainingPage.CelebrationComplete` | src/pages/Training.tsx:204-216 | one more completed card; before the last card the index advances and the page is idle; on the last card it hands the new completed count to the rewards page, never more than the cards reached, and the page has left |
| `Training.TrainingPage.DragEnd` | src/pages/Training.tsx:224-232 | advances only when offset > 100, velocity > 0 and not on the last card; never changes the completed count or attempts |
| `Training.TrainingPage.Exit` | src/pages/Training.tsx:218-221 | ends the session as `SessionEnded` states (record folded and saved, settings kept) and goes home, leaving the page's own state otherwise unchanged |
| `Training.SoftFailureScenario` | src/pages/Training.tsx:137-185 | three start/stop rounds without sound on one card end in success feedback with 3 stars |
| `Training.CelebrateEveryCard` | src/pages/Training.tsx:204-216 | celebrating every card from the first hands exactly the number of cards to the rewards page, once |
| `Rewards.GetRewardsData` | src/pages/Rewards.tsx:15-37 | the result is dated today; a missing ledger is zero and empty; a same-day one is unchanged; an older one keeps total and badges with today's stars at 0 |
| `Rewards.GetRewardsDataStable` | src/pages/Rewards.tsx:15-37 | reading twice on the same day gives the first read |
| `Rewards.SavedLedgerReadsBack` | src/pages/Rewards.tsx:15-41 | a ledger saved today reads back unchanged |
| `Rewards.Credit` | src/pages/Rewards.tsx:55-59 | total and today's stars both grow by c; every other field is unchanged |
| `Rewards.CreditAdditive` | src/pages/Rewards.tsx:55-59 | two credits equal one credit of their sum, in either order |
| `Rewards.CreditMonotone` | src/pages/Rewards.tsx:57 | a non-negative credit never lowers either count |
| `Rewards.FirstRunOfTheDay` | src/pages/Rewards.tsx:20-59 | the first credit of a new day makes today's count exactly c and carries the total on |
| `Rewards.UnlockedFlags` | src/pages/Rewards.tsx:70-76 | one flag per badge, each set iff the total reaches its threshold |
| `Rewards.ThresholdsAscending` | src/pages/Rewards.tsx:70-76 | the thresholds 1, 5, 10, 20, 50 rise strictly |
| `Rewards.UnlockedPrefix` | src/pages/Rewards.tsx:70-76 | an unlocked badge implies every earlier one |
| `Rewards.UnlockedIds` | src/pages/Rewards.tsx:70-76 | a badge id is in the unlocked set iff the total reaches that badge's threshold |
| `Rewards.UnlockedGrows` | src/pages/Rewards.tsx:70-76 | the unlocked set only grows as the total grows |
| `Rewards.UnlockedExtremes` | src/pages/Rewards.tsx:70-76 | no badge below 1 star; all five ids from 50 |
| `Rewards.Stickers` | src/pages/Rewards.tsx:153-165 | positive today's stars show min(stars, 20) stickers, none otherwise, sticker i using symbol i mod 4 |
| `Rewards.StickersBounded` | src/pages/Rewards.tsx:155-163 | at most 20 stickers, repeating every four |
| `Rewards.RewardsPage.constructor` | src/pages/Rewards.tsx:46-48 | the shown ledger is read from storage; nothing is written |
| `Rewards.RewardsPage.HandleCompletion` | src/pages/Rewards.tsx:51-68 | a truthy completed count re-reads, credits and saves the ledger and announces the count; otherwise nothing changes |
| `Rewards.TwoRunsOneDay` | src/pages/Rewards.tsx:51-68 | two hand-offs on one day credit their sum |
| `ParentSettings.PressedPin` | src/pages/ParentSettings.tsx:113-121 | a key only appends a digit or removes the last character: a digit is appended while fewer than four are typed, `del` shortens a non-empty buffer by one, and otherwise the buffer is unchanged |
| `ParentSettings.PressedPinBounded` | src/pages/ParentSettings.tsx:117-121 | the buffer stays at most four digits; a check is armed iff the key brings it from below four to four |
| `ParentSettings.DelUndoesDigit` | src/pages/ParentSettings.tsx:115-119 | 'del' removes the digit just typed; an empty PIN stays empty |
| `ParentSettings.FullOrBlankIgnored` | src/pages/ParentSettings.tsx:117-136 | a full buffer ignores digits; the null key changes nothing and never arms a check |
| `ParentSettings.KeyChars` | src/pages/ParentSettings.tsx:118 | one printed character per digit key |
| `ParentSettings.TypedDigits` | src/pages/ParentSettings.tsx:117-119 | digits typed while there is room are appended in order |
| `ParentSettings.TypingCorrectPin` | src/pages/ParentSettings.tsx:113-119 | typing 1, 2, 3, 4 on an empty pad spells the correct PIN |
| `ParentSettings.CheckPin` | src/pages/ParentSettings.tsx:22-33 | unlock iff the candidate is '1234' |
| `ParentSettings.Patch` | src/pages/ParentSettings.tsx:35-36 | the patch names exactly the chosen key |
| `ParentSettings.PatchChangesOneKey` | src/pages/ParentSettings.tsx:35-36 | a setting change writes the named key and leaves every other key |
| `ParentSettings.ParentSettingsPage.constructor` | src/pages/ParentSettings.tsx:9-20 | starts locked with an empty PIN; the rating mode and the gate's settings come from storage |
| `ParentSettings.ParentSettingsPage.PressKey` | src/pages/ParentSettings.tsx:113-130 | the buffer becomes the pressed-key function of the old buffer; completing four digits queues a check of exactly those digits; the flags are untouched |
| `ParentSettings.ParentSettingsPage.PinCheckTimeout` | src/pages/ParentSettings.tsx:121-128 | the oldest armed check fires: '1234' unlocks, anything else sets the error flag and clears the PIN |
| `ParentSettings.ParentSettingsPage.HandlePinSubmit` | src/pages/ParentSettings.tsx:25-33 | a correct PIN unlocks and clears the error; a wrong one sets the error and clears the PIN |
| `ParentSettings.ParentSettingsPage.HandleSettingChange` | src/pages/ParentSettings.tsx:35-39 | the gate's settings take the one-key patch: that key gets the value, every other key is kept, the whole record is saved; the saved notice shows; the unlock record, the published state, the open session, the PIN pad, the error and the rating mode are unchanged |
| `ParentSettings.ParentSettingsPage.HandleRatingModeChange` | src/pages/ParentSettings.tsx:41-46 | the mode is stored and shown, and reads back as itself; the saved notice shows; the PIN pad and the error are unchanged |
| `ParentSettings.ParentSettingsPage.HandleParentUnlock` | src/pages/ParentSettings.tsx:55-59 | the gate's record takes the unlock and is saved, the published state is recomputed with rest time 0; settings, the open session, the PIN pad, the error and the rating mode are unchanged; the saved notice shows |
| `ParentSettings.ParentSettingsPage.SavedTimeout` | src/pages/ParentSettings.tsx:38-58 | the saved notice hides; the PIN pad, the error and the rating mode are unchanged |
| `ParentSettings.EnterCorrectPin` | src/pages/ParentSettings.tsx:113-130 | typing 1, 2, 3, 4 and letting the check fire unlocks the page |

## Left out

- **Browser audio.** Microphone acquisition, `AudioContext`, the analyser and its FFT averaging are not modelled (src/hooks/useVoiceDetection.ts:49-60,102-116,137-139). Each frame delivers one normalised sample instead, and a granted microphone stands for an open stream and analyser, which the model represents by `isRecording`. `requestPermission` is not modelled.
- **Speech synthesis and sounds.** These are foreign browser calls. The end of the demo and the end of the celebration arrive as method calls (`DemoFinished`, `CelebrationComplete`).
- **The hold-mode handlers.** The speak button is rendered in toggle mode (src/pages/Training.tsx:343-352), so `handlePressStart` and `handlePressEnd` are never wired to it. `TrainingPage.PressStart` and `TrainingPage.PressEnd` model these handlers as written, although the page never calls them.
- **Leaving the page.** Once the page navigates (the parent page, the rewards page, home), it is unmounted and runs no handler again. The page's handlers therefore require `navigation == Stay`.
- **The unused submit handler.** `handlePinSubmit` (src/pages/ParentSettings.tsx:25-33) is defined but never referenced in the render: the pad's key handler schedules the check itself (src/pages/ParentSettings.tsx:114-130). `ParentSettingsPage.HandlePinSubmit` models the handler as written, although the page never calls it.
- **The reminder timer** in src/pages/Training.tsx:99-113 is not modelled: it only speaks a prompt and changes no state.
- **Timer scheduling and React render timing.**
  - Each timer firing is a method call. Its caller decides when it fires.
  - Several `Date.now()` calls inside one handler are treated as one instant `now`.
  - `RecorderStopped` stands for the effect that runs when the monitor's `isRecording` falls from true to false. Callers invoke it only then. With a denied microphone the flag never rises, so nothing completes the attempt. The page's button is in toggle mode, and a second tap starts nothing, because the page is no longer in prompt-hold. The page therefore stays in `Recording` until a swipe moves to the next card or the child exits.
- **Stale closures.**
  - Handlers are modelled as reading the latest state, with their effects applied in order. The model therefore does not capture anything in the source that depends on a handler seeing an old render's values.
  - For example, a manual stop completes with the monitor's freshly computed average rather than the previous render's `averageVolume`.
  - The mount effect's cleanup in src/pages/Training.tsx:74-79 also holds the first render's `endSession`. The model does not follow what that cleanup does at unmount.
- **The lock screen replacing the page.** While the gate is locked the training page renders only the lock screen (src/pages/Training.tsx:240-250). The handlers that the source guards with `canPlay` are modelled with that guard. Clicks the UI does not offer are out of model.
- **Storage plumbing.** `localStorage`, JSON encoding and `toDateString` are out; the model uses in-memory `Option` slots and an opaque `Day`. `handleClearData` (src/pages/ParentSettings.tsx:48-53) clears all storage and reloads the page, and is not modelled.
- **Floating point.** Amplitudes, thresholds and the rest time are Dafny `real`s, so IEEE rounding is not modelled. `Number.prototype.toString` is modelled only for integral values below 1e21.
- **The duplicate `formatTime`** in src/pages/Training.tsx:234-238 is identical to the lock screen's and is covered by `LockScreen.FormatTime`.
- **Stories, Rhymes and the presentation components** (src/pages/Stories.tsx, src/pages/Rhymes.tsx, SpeakButton, SuccessCelebration, EncouragementToast, WordCard, the routing in src/App.tsx, the layout of src/pages/Home.tsx) are not part of this model. Neither are the content tables or the random praise selection in src/utils/audio.ts.
- **The `nextCard` state** is declared by the source but never entered. The page invariant states that it is never entered.
- **An empty word list** crashes the source on its first card. `TrainingPage.constructor` therefore requires a non-empty list.
