/**
 * The rewards page (Rewards): the star ledger kept in storage with its daily
 * rollover, the credit of a finished training run, the achievement badges
 * and the sticker row.
 */
module Rewards {
  import opened Base

  datatype RewardsData = RewardsData(totalStars: int, todayStars: int, lastDate: Day, achievements: seq<string>)

  /**
   * getRewardsData: the stored ledger as of `today`. A ledger from another day
   * keeps its totals and badges but starts today's count afresh; a missing
   * ledger is empty.
   */
  function GetRewardsData(stored: Option<RewardsData>, today: Day): (r: RewardsData)
    ensures r.lastDate == today
    ensures stored.None? ==> r == RewardsData(0, 0, today, [])
    ensures stored.Some? && stored.value.lastDate == today ==> r == stored.value
    ensures stored.Some? && stored.value.lastDate != today ==>
              r.todayStars == 0 && r.totalStars == stored.value.totalStars &&
              r.achievements == stored.value.achievements
  {
    match stored
    case None => RewardsData(0, 0, today, [])
    case Some(data) => if data.lastDate != today then data.(todayStars := 0, lastDate := today) else data
  }

  /** Reading the ledger twice on the same day gives what the first read gave. */
  lemma GetRewardsDataStable(stored: Option<RewardsData>, today: Day)
    ensures GetRewardsData(Some(GetRewardsData(stored, today)), today) == GetRewardsData(stored, today)
  {
  }

  /** A ledger saved today reads back unchanged. */
  lemma SavedLedgerReadsBack(r: RewardsData)
    ensures GetRewardsData(Some(r), r.lastDate) == r
  {
  }

  /** `state?.completed` is truthy: present and not zero. */
  predicate Truthy(completed: Option<int>) {
    completed.Some? && completed.value != 0
  }

  /** The completion update: `c` more stars in total and today, nothing else changed. */
  function Credit(d: RewardsData, c: int): (r: RewardsData)
    ensures r.totalStars - d.totalStars == c && r.todayStars - d.todayStars == c
    ensures r.(totalStars := d.totalStars, todayStars := d.todayStars) == d
  {
    d.(totalStars := d.totalStars + c, todayStars := d.todayStars + c)
  }

  /** Two credits are one credit of their sum, in either order. */
  lemma CreditAdditive(d: RewardsData, a: int, b: int)
    ensures Credit(Credit(d, a), b) == Credit(d, a + b) == Credit(Credit(d, b), a)
  {
  }

  /** With non-negative completions the total never goes down. */
  lemma CreditMonotone(d: RewardsData, c: int)
    requires c >= 0
    ensures Credit(d, c).totalStars >= d.totalStars && Credit(d, c).todayStars >= d.todayStars
  {
  }

  /** The first run of a new day: today's count is exactly that run's stars, the total carries on. */
  lemma FirstRunOfTheDay(stored: RewardsData, today: Day, c: int)
    requires stored.lastDate != today
    ensures var r := Credit(GetRewardsData(Some(stored), today), c);
            r.todayStars == c && r.totalStars == stored.totalStars + c && r.lastDate == today
  {
  }

  // ---------------------------------------------------------------------------
  // Achievement badges

  datatype Achievement = Achievement(id: string, name: string, emoji: string, stars: int)

  const Achievements: seq<Achievement> := [
    Achievement("first", "第一次开口", "🎤", 1),
    Achievement("five", "说了5个词", "⭐", 5),
    Achievement("ten", "说了10个词", "🌟", 10),
    Achievement("twenty", "小小演说家", "🎉", 20),
    Achievement("fifty", "语言小天才", "🏆", 50)
  ]

  /** Which badges show as unlocked for a total: each one whose threshold the total reaches. */
  function UnlockedFlags(totalStars: int): (flags: seq<bool>)
    ensures |flags| == |Achievements|
    ensures forall i :: 0 <= i < |flags| ==> (flags[i] <==> totalStars >= Achievements[i].stars)
  {
    seq(|Achievements|, i requires 0 <= i < |Achievements| => totalStars >= Achievements[i].stars)
  }

  /** The set of unlocked badge ids. */
  function UnlockedIds(totalStars: int): (ids: set<string>)
    ensures forall i :: 0 <= i < |Achievements| ==> (Achievements[i].id in ids <==> totalStars >= Achievements[i].stars)
  {
    set i | 0 <= i < |Achievements| && totalStars >= Achievements[i].stars :: Achievements[i].id
  }

  /** The thresholds rise strictly along the list. */
  lemma ThresholdsAscending(i: int, j: int)
    requires 0 <= i < j < |Achievements|
    ensures Achievements[i].stars < Achievements[j].stars
  {
  }

  /** The unlocked badges are always a prefix of the list: a badge implies every earlier one. */
  lemma UnlockedPrefix(totalStars: int, i: int, j: int)
    requires 0 <= i < j < |Achievements|
    ensures UnlockedFlags(totalStars)[j] ==> UnlockedFlags(totalStars)[i]
  {
    ThresholdsAscending(i, j);
  }

  /** More stars never lock a badge again. */
  lemma UnlockedGrows(t1: int, t2: int)
    requires t1 <= t2
    ensures UnlockedIds(t1) <= UnlockedIds(t2)
  {
  }

  /** Exactly the named thresholds: no badge below 1 star, all five from 50. */
  lemma UnlockedExtremes(totalStars: int)
    ensures totalStars < 1 ==> UnlockedIds(totalStars) == {}
    ensures totalStars >= 50 ==> UnlockedIds(totalStars) == {"first", "five", "ten", "twenty", "fifty"}
  {
    if totalStars >= 50 {
      assert Achievements[0].id in UnlockedIds(totalStars);
      assert Achievements[1].id in UnlockedIds(totalStars);
      assert Achievements[2].id in UnlockedIds(totalStars);
      assert Achievements[3].id in UnlockedIds(totalStars);
      assert Achievements[4].id in UnlockedIds(totalStars);
    }
  }

  // ---------------------------------------------------------------------------
  // Today's stickers

  const StickerSymbols: seq<string> := ["⭐", "🌟", "✨", "💫"]

  /** The sticker row: shown only for a positive count, at most 20, cycling through four symbols. */
  function Stickers(todayStars: int): (s: seq<string>)
    ensures todayStars > 0 ==> |s| == Min(todayStars, 20)
    ensures todayStars <= 0 ==> s == []
    ensures forall i :: 0 <= i < |s| ==> s[i] == StickerSymbols[i % 4]
  {
    if todayStars > 0 then seq(Min(todayStars, 20), i => StickerSymbols[i % 4]) else []
  }

  /** The row never holds more than 20 stickers, and repeats every four. */
  lemma StickersBounded(todayStars: int)
    ensures |Stickers(todayStars)| <= 20
    ensures forall i :: 0 <= i < |Stickers(todayStars)| - 4 ==> Stickers(todayStars)[i] == Stickers(todayStars)[i + 4]
  {
  }

  // ---------------------------------------------------------------------------
  // The page

  class RewardsPage {
    /** The ledger slot of storage. */
    var stored: Option<RewardsData>
    var rewards: RewardsData
    var showNewStars: bool
    var newStarsCount: int

    /** Mounting: the shown ledger is read from storage; nothing is written back. */
    constructor (storedLedger: Option<RewardsData>, today: Day)
      ensures stored == storedLedger && rewards == GetRewardsData(storedLedger, today)
      ensures !showNewStars && newStarsCount == 0
    {
      stored := storedLedger;
      rewards := GetRewardsData(storedLedger, today);
      showNewStars := false;
      newStarsCount := 0;
    }

    /**
     * The effect on the navigation state: a truthy `completed` re-reads the
     * ledger, credits it, saves it and announces the new stars.
     */
    method HandleCompletion(completed: Option<int>, today: Day)
      modifies this
      ensures Truthy(completed) ==>
                rewards == Credit(GetRewardsData(old(stored), today), completed.value) &&
                stored == Some(rewards) && newStarsCount == completed.value && showNewStars
      ensures !Truthy(completed) ==>
                rewards == old(rewards) && stored == old(stored) &&
                newStarsCount == old(newStarsCount) && showNewStars == old(showNewStars)
    {
      if Truthy(completed) {
        var currentData := GetRewardsData(stored, today);
        var newData := Credit(currentData, completed.value);
        rewards := newData;
        stored := Some(newData);
        newStarsCount := completed.value;
        showNewStars := true;
      }
    }
  }

  /** Two runs on one day are credited to the same ledger, adding up. */
  method TwoRunsOneDay(page: RewardsPage, a: int, b: int, today: Day)
    requires a != 0 && b != 0
    modifies page
    ensures page.rewards == Credit(GetRewardsData(old(page.stored), today), a + b)
  {
    page.HandleCompletion(Some(a), today);
    page.HandleCompletion(Some(b), today);
    CreditAdditive(GetRewardsData(old(page.stored), today), a, b);
  }
}
