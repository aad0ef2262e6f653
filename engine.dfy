/** The progression engine as the server runs it: one game-state object whose
    fields the helpers of server.js assign step by step. Each method is proved
    to leave the object exactly as the corresponding function of the
    `Progression`, `Quests`, `Badges` and `Award` modules describes. */
module Engine {
  import opened GameData
  import opened Text
  import opened Progression
  import opened Quests
  import opened Badges
  import opened Award
  import Catalog

  /** The `gameState` object of one request. Its nested blocks are values that
      the methods replace field by field; the document is parsed afresh for
      every request, so no block is shared with anything else. */
  class GameState {
    var player: Player
    var dailyQuests: seq<Quest>
    var weeklyQuests: seq<Quest>
    var lastQuestGenerationDay: int
    var lastWeeklyQuestGenDate: Option<int>
    var messageCount: int

    /** The document the object currently holds. */
    function Doc(): Document
      reads this
    {
      Document(player, dailyQuests, weeklyQuests, lastQuestGenerationDay, lastWeeklyQuestGenDate, messageCount)
    }

    constructor (d: Document)
      ensures Doc() == d
    {
      player := d.player;
      dailyQuests := d.dailyQuests;
      weeklyQuests := d.weeklyQuests;
      lastQuestGenerationDay := d.lastQuestGenerationDay;
      lastWeeklyQuestGenDate := d.lastWeeklyQuestGenDate;
      messageCount := d.messageCount;
    }

    /** `updateHealth` (server.js:134-146). */
    method UpdateHealth(nowMs: int)
      modifies this`player
      ensures player == HealthUpdated(old(player), nowMs)
    {
      var elapsed := nowMs - player.lastMessageTime;
      if player.stats.None? {
        player := player.(stats := Some(Catalog.DefaultStats));
      }
      if elapsed > MsPerDay {
        var loss := HealthLoss(elapsed);
        var s := player.stats.value;
        player := player.(stats := Some(s.(health := Max(0, s.health - loss))));
      }
      player := player.(lastMessageTime := nowMs);
    }

    /** `getStreakMultiplier` (server.js:111-132): updates the streak and
        returns the multiplier, in tenths, of the updated streak. */
    method GetStreakMultiplier(clock: Clock) returns (multiplier: int)
      modifies this`player
      ensures player == StreakUpdated(old(player), clock)
      ensures multiplier == MultiplierTenths(player.streak)
    {
      var today := Today(clock);
      if today != player.lastMessageDay {
        var daysDiff := (clock.nowMs - MidnightMs(player.lastMessageDay)) / MsPerDay;
        if daysDiff == 1 {
          player := player.(streak := player.streak + 1);
        } else {
          player := player.(streak := 1);
        }
        player := player.(currentDay := clock.dayOfMonth, lastMessageDay := today);
      }
      multiplier := 10;
      if player.streak >= 30 {
        multiplier := 50;
      } else if player.streak >= 14 {
        multiplier := 30;
      } else if player.streak >= 7 {
        multiplier := 20;
      } else if player.streak >= 3 {
        multiplier := 15;
      }
    }

    /** `updateAchievementTitle` (server.js:231-244): the first tier of the
        table that holds the total XP, found by a scan that stops there. */
    method UpdateAchievementTitle() returns (info: TitleInfo)
      modifies this`player
      ensures (player, info) == TitleUpdated(old(player))
    {
      var totalXp := player.totalXpEarned;
      var newTitle := Catalog.Titles[0];
      for i := 0 to |Catalog.Titles|
        invariant newTitle == Catalog.Titles[0]
        invariant forall j :: 0 <= j < i ==> !InTier(Catalog.Titles[j], totalXp)
      {
        if InTier(Catalog.Titles[i], totalXp) {
          newTitle := Catalog.Titles[i];
          assert FirstTier(Catalog.Titles, totalXp) == Some(i);
          break;
        }
      }
      assert newTitle == TitleFor(totalXp);
      var titleChanged := player.title != newTitle.name;
      player := player.(title := newTitle.name, titleLevel := newTitle.level);
      info := TitleInfo(titleChanged, newTitle);
    }

    /** `updateStatistics` (server.js:246-257), which ends by updating the title. */
    method UpdateStatistics(xp: int)
      requires StatisticsOrDefault(player).totalMessages != -1
      modifies this`player
      ensures player == TitleUpdated(StatisticsUpdated(old(player), xp)).0
    {
      if player.statistics.None? {
        player := player.(statistics := Some(Catalog.DefaultStatistics));
      }
      var stats := player.statistics.value;
      stats := stats.(totalMessages := stats.totalMessages + 1);
      stats := stats.(totalXpEarned := stats.totalXpEarned + xp);
      stats := stats.(averageXpPerMessage := RoundDiv(stats.totalXpEarned, stats.totalMessages));
      if xp > stats.highestSingleMessageXp {
        stats := stats.(highestSingleMessageXp := xp);
      }
      if xp >= 20 {
        stats := stats.(totalHighQualityMessages := stats.totalHighQualityMessages + 1);
      }
      if player.streak > stats.totalDaysActive {
        stats := stats.(totalDaysActive := player.streak);
      }
      player := player.(statistics := Some(stats));
      if player.streak > player.longestStreak {
        player := player.(longestStreak := player.streak);
      }
      assert player == StatisticsUpdated(old(player), xp);
      var _ := UpdateAchievementTitle();
    }

    /** `checkBadges` (server.js:148-159): one pass over the catalog, pushing
        the key of every unowned badge whose condition holds. */
    method CheckBadges(hour: int, weekday: int) returns (newBadges: seq<Catalog.Badge>)
      requires Ready(player)
      modifies this`player
      ensures (player, newBadges) == Scan(old(player), hour, weekday)
    {
      ghost var owned := player.badges;
      newBadges := [];
      for i := 0 to |Catalog.Badges|
        invariant newBadges == Unlocked(Catalog.Badges[..i], owned, old(player), hour, weekday)
        invariant player == old(player).(badges := owned + Keys(newBadges))
      {
        var badge := Catalog.Badges[i];
        ScanStep(i, owned, newBadges, old(player), player, hour, weekday);
        if badge.key !in player.badges {
          if Holds(badge, player, hour, weekday) {
            player := player.(badges := player.badges + [badge.key]);
            newBadges := newBadges + [badge];
          }
        }
      }
      assert Catalog.Badges[..|Catalog.Badges|] == Catalog.Badges;
    }

    /** `generateDailyQuests` (server.js:161-172), with the shuffle's outcome given as `pick`. */
    method GenerateDailyQuests(clock: Clock, pick: seq<nat>)
      requires ValidPick(pick, |Catalog.DailyTemplates|)
      modifies this`dailyQuests, this`lastQuestGenerationDay
      ensures Doc() == DailyGenerated(old(Doc()), Today(clock), pick)
    {
      var today := Today(clock);
      if today != lastQuestGenerationDay {
        dailyQuests := [];
        lastQuestGenerationDay := today;
        for i := 0 to 3
          invariant dailyQuests == FreshQuests(Catalog.DailyTemplates, pick)[..i]
          invariant lastQuestGenerationDay == today
        {
          dailyQuests := dailyQuests + [Instantiate(Catalog.DailyTemplates[pick[i]], i)];
        }
        assert dailyQuests == FreshQuests(Catalog.DailyTemplates, pick);
      }
    }

    /** `generateWeeklyQuests` (server.js:174-189). */
    method GenerateWeeklyQuests(clock: Clock, pick: seq<nat>)
      requires ValidPick(pick, |Catalog.WeeklyTemplates|)
      modifies this`weeklyQuests, this`lastWeeklyQuestGenDate
      ensures Doc() == WeeklyGenerated(old(Doc()), clock, pick)
    {
      var lastGen := match lastWeeklyQuestGenDate case Some(day) => MidnightMs(day) case None => 0;
      var diffDays := CeilDays(Abs(clock.nowMs - lastGen));
      if |weeklyQuests| == 0 || diffDays >= 7 {
        weeklyQuests := [];
        lastWeeklyQuestGenDate := Some(Today(clock));
        for i := 0 to 3
          invariant weeklyQuests == FreshQuests(Catalog.WeeklyTemplates, pick)[..i]
          invariant lastWeeklyQuestGenDate == Some(Today(clock))
        {
          weeklyQuests := weeklyQuests + [Instantiate(Catalog.WeeklyTemplates[pick[i]], i)];
        }
        assert weeklyQuests == FreshQuests(Catalog.WeeklyTemplates, pick);
      }
    }

    /** `updateQuestProgress` (server.js:191-229). The daily pass checks
        whether the whole list is complete right after each completion,
        while the quests after it still hold their old state. */
    method UpdateQuestProgress(message: string, xp: int, clock: Clock, dailyPick: seq<nat>, weeklyPick: seq<nat>)
      requires Ready(player)
      requires ValidPick(dailyPick, |Catalog.DailyTemplates|) && ValidPick(weeklyPick, |Catalog.WeeklyTemplates|)
      modifies this`player, this`dailyQuests, this`weeklyQuests, this`lastQuestGenerationDay, this`lastWeeklyQuestGenDate
      ensures Doc() == QuestsUpdated(old(Doc()), message, xp, clock, dailyPick, weeklyPick)
    {
      ghost var d := Doc();
      GenerateDailyQuests(clock, dailyPick);
      GenerateWeeklyQuests(clock, weeklyPick);
      ghost var g := Doc();
      assert g == Generated(d, clock, dailyPick, weeklyPick);
      var facts := FactsOf(message);
      var focus := player.stats.value.focus;
      DailyProgress(facts, xp, focus);
      WeeklyProgress(facts, xp);
    }

    /** The daily `forEach` of `updateQuestProgress`. */
    method DailyProgress(facts: MessageFacts, xp: int, focus: int)
      requires player.statistics.Some?
      modifies this`dailyQuests, this`player
      ensures dailyQuests == DailyPass(old(dailyQuests), facts, xp, focus)
      ensures player == old(player).(statistics := Some(Counted(old(player.statistics.value), old(dailyQuests), dailyQuests)))
    {
      ghost var orig := dailyQuests;
      ghost var s := player.statistics.value;
      for i := 0 to |dailyQuests|
        invariant |dailyQuests| == |orig|
        invariant forall j :: 0 <= j < i ==> dailyQuests[j] == DailyPass(orig, facts, xp, focus)[j]
        invariant forall j :: i <= j < |orig| ==> dailyQuests[j] == orig[j]
        invariant player == old(player).(statistics := Some(Tally(s, orig, dailyQuests, i)))
      {
        ghost var before := dailyQuests;
        AdvanceDailyQuest(i, facts, xp, focus);
        PassPrefixStep(orig, before, dailyQuests, facts, xp, focus, i);
        TallyStep(s, orig, before, dailyQuests, i);
      }
      assert dailyQuests == DailyPass(orig, facts, xp, focus);
      TallyDone(s, orig, dailyQuests);
    }

    /** The body of the daily `forEach` for the quest at position `i`: when
        the quest completes, one more completed quest is counted, and one more
        completed set if at that moment every quest of the list is complete. */
    method AdvanceDailyQuest(i: int, facts: MessageFacts, xp: int, focus: int)
      requires 0 <= i < |dailyQuests| && player.statistics.Some?
      modifies this`dailyQuests, this`player
      ensures dailyQuests == old(dailyQuests)[i := DailyStep(old(dailyQuests[i]), facts, xp, focus)]
      ensures var st := old(player.statistics.value);
        var done := NewlyCompletedAt(old(dailyQuests), dailyQuests, i);
        player == old(player).(statistics := Some(st.(
          questsCompleted := st.questsCompleted + (if done then 1 else 0),
          dailyQuestsCompletedTotal := st.dailyQuestsCompletedTotal + (if done && AllCompleted(dailyQuests) then 1 else 0))))
    {
      var quest := dailyQuests[i];
      if !quest.completed {
        if DailyAdvances(quest.kind, facts, xp, focus) {
          quest := quest.(progress := quest.progress + 1);
        }
        if quest.progress >= quest.target {
          quest := quest.(completed := true);
          dailyQuests := dailyQuests[i := quest];
          var stats := player.statistics.value;
          stats := stats.(questsCompleted := stats.questsCompleted + 1);
          if AllCompleted(dailyQuests) {
            stats := stats.(dailyQuestsCompletedTotal := stats.dailyQuestsCompletedTotal + 1);
          }
          player := player.(statistics := Some(stats));
        } else {
          dailyQuests := dailyQuests[i := quest];
        }
      }
    }

    /** The weekly `forEach` of `updateQuestProgress`. */
    method WeeklyProgress(facts: MessageFacts, xp: int)
      modifies this`weeklyQuests
      ensures weeklyQuests == WeeklyPass(old(weeklyQuests), facts, xp)
    {
      ghost var orig := weeklyQuests;
      for i := 0 to |weeklyQuests|
        invariant |weeklyQuests| == |orig|
        invariant forall j :: 0 <= j < i ==> weeklyQuests[j] == WeeklyStep(orig[j], facts, xp)
        invariant forall j :: i <= j < |orig| ==> weeklyQuests[j] == orig[j]
      {
        var quest := weeklyQuests[i];
        if !quest.completed {
          quest := quest.(progress := quest.progress + WeeklyGain(quest.kind, facts, xp));
          if quest.progress >= quest.target {
            quest := quest.(completed := true);
          }
          weeklyQuests := weeklyQuests[i := quest];
        }
      }
      assert weeklyQuests == WeeklyPass(orig, facts, xp);
    }

    /** The first half of `awardXP` (server.js:266-279): health, streak and
        multiplier, base XP, the award with level rollover, and the statistics. */
    method CreditMessage(message: string, clock: Clock) returns (multiplier: int, baseXp: int, xp: int)
      requires StatisticsOrDefault(player).totalMessages != -1
      modifies this`player
      ensures Credit(player, multiplier, baseXp, xp) == Credited(old(player), message, clock)
    {
      ghost var p := player;
      UpdateHealth(clock.nowMs);
      multiplier := GetStreakMultiplier(clock);
      baseXp := if JsLength(message) > 50 then 20 else 10;
      if '?' in message {
        baseXp := baseXp + 5;
      }
      xp := baseXp * multiplier / 10;
      player := player.(xp := player.xp + xp, totalXpEarned := player.totalXpEarned + xp);
      if player.xp >= 100 {
        player := player.(level := player.level + player.xp / 100, xp := player.xp % 100);
      }
      ghost var p1 := StreakUpdated(HealthUpdated(p, clock.nowMs), clock);
      assert player == XpApplied(p1, xp);
      UpdateStatistics(xp);
    }

    /** `awardXP` (server.js:259-287). */
    method AwardXP(message: string, clock: Clock, dailyPick: seq<nat>, weeklyPick: seq<nat>) returns (result: AwardResult)
      requires PicksValid(dailyPick, weeklyPick)
      requires IsValidMessage(message) ==> StatisticsOrDefault(player).totalMessages != -1
      modifies this
      ensures (Doc(), result) == Award.Award(old(Doc()), message, clock, dailyPick, weeklyPick)
      ensures old(WellFormed(Doc())) ==> WellFormed(Doc())
    {
      ghost var d := Doc();
      if WellFormed(d) {
        AwardPreservesWellFormed(d, message, clock, dailyPick, weeklyPick);
      }
      var trimmed := ToLower(Trim(message));
      var valid := JsLength(trimmed) >= 10 && trimmed !in Reserved;
      if !valid {
        return AwardResult(0, 10, 0, player.streak, [], None);
      }
      var multiplier, baseXp, xp := CreditMessage(message, clock);
      assert Doc() == d.(player := Credited(d.player, message, clock).player);
      UpdateQuestProgress(message, xp, clock, dailyPick, weeklyPick);
      var newBadges := CheckBadges(clock.hour, clock.weekday);
      var titleInfo := UpdateAchievementTitle();
      result := AwardResult(xp, multiplier, baseXp, player.streak, newBadges, Some(titleInfo));
    }
  }

  /** The statistics of the daily loop after `i` quests: `s` with the
      completions among the first `i` positions counted, and one completed set
      counted if any of them completed and the list `cur` is now complete. */
  ghost function Tally(s: Statistics, orig: seq<Quest>, cur: seq<Quest>, i: int): Statistics
    requires |orig| == |cur| && 0 <= i <= |orig|
  {
    var n := NewlyCompleted(orig[..i], cur[..i]);
    s.(questsCompleted := s.questsCompleted + n,
       dailyQuestsCompletedTotal := s.dailyQuestsCompletedTotal + (if n > 0 && AllCompleted(cur) then 1 else 0))
  }

  /** Visiting position `i` of the daily loop extends the prefix that agrees
      with `DailyPass` by one, and leaves the rest of the list as it was. */
  lemma PassPrefixStep(orig: seq<Quest>, before: seq<Quest>, after: seq<Quest>, m: MessageFacts, xp: int, focus: int, i: int)
    requires |before| == |orig| && 0 <= i < |orig|
    requires forall j :: 0 <= j < i ==> before[j] == DailyPass(orig, m, xp, focus)[j]
    requires forall j :: i <= j < |orig| ==> before[j] == orig[j]
    requires after == before[i := DailyStep(before[i], m, xp, focus)]
    ensures |after| == |orig|
    ensures forall j :: 0 <= j < i + 1 ==> after[j] == DailyPass(orig, m, xp, focus)[j]
    ensures forall j :: i + 1 <= j < |orig| ==> after[j] == orig[j]
  {
  }

  /** A loop that has visited every position has counted what the pass does. */
  lemma TallyDone(s: Statistics, orig: seq<Quest>, cur: seq<Quest>)
    requires |orig| == |cur|
    ensures Tally(s, orig, cur, |orig|) == Counted(s, orig, cur)
  {
    assert orig[..|orig|] == orig && cur[..|cur|] == cur;
  }

  /** Visiting position `i` adds its own completion to the count, and a
      completed set exactly when this completion finishes the list. */
  lemma TallyStep(s: Statistics, orig: seq<Quest>, before: seq<Quest>, after: seq<Quest>, i: int)
    requires |orig| == |before| == |after| && 0 <= i < |orig|
    requires before[i] == orig[i]
    requires forall j :: 0 <= j < |orig| && j != i ==> after[j] == before[j]
    requires orig[i].completed ==> after[i] == orig[i]
    ensures var st := Tally(s, orig, before, i);
      var done := NewlyCompletedAt(orig, after, i);
      Tally(s, orig, after, i + 1) == st.(
        questsCompleted := st.questsCompleted + (if done then 1 else 0),
        dailyQuestsCompletedTotal := st.dailyQuestsCompletedTotal + (if done && AllCompleted(after) then 1 else 0))
  {
    NewlyCompletedStep(orig, before, after, i);
  }

  /** One step of the daily loop: the count of newly completed quests over the
      visited prefix grows by the step's own completion, and the "whole list
      complete" test reads the same flags unless the step completed a quest,
      in which case the list was not complete before it. */
  lemma NewlyCompletedStep(orig: seq<Quest>, before: seq<Quest>, after: seq<Quest>, i: int)
    requires |orig| == |before| == |after| && 0 <= i < |orig|
    requires before[i] == orig[i]
    requires forall j :: 0 <= j < |orig| && j != i ==> after[j] == before[j]
    requires orig[i].completed ==> after[i] == orig[i]
    ensures NewlyCompleted(orig[..i + 1], after[..i + 1])
      == NewlyCompleted(orig[..i], before[..i]) + (if NewlyCompletedAt(orig, after, i) then 1 else 0)
    ensures !NewlyCompletedAt(orig, after, i) ==> (AllCompleted(after) <==> AllCompleted(before))
    ensures NewlyCompletedAt(orig, after, i) ==> !AllCompleted(before)
  {
    assert orig[..i + 1][..i] == orig[..i];
    assert after[..i + 1][..i] == before[..i];
    if !NewlyCompletedAt(orig, after, i) {
      assert after[i].completed == before[i].completed;
    }
  }
}
