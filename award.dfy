/** `awardXP` (server.js:259-287): the gate, then health, streak, XP,
    statistics, title, quests, badges and the title once more, in that order,
    on one document. */
module Award {
  import opened GameData
  import opened Text
  import opened Progression
  import opened Quests
  import opened Badges
  import Catalog

  /** The object `awardXP` returns; the multiplier is in tenths and a missing
      `titleInfo` is the `null` of a rejected message. */
  datatype AwardResult = AwardResult(
    xp: int, multiplierTenths: int, baseXp: int, streak: int,
    newBadges: seq<Catalog.Badge>, titleInfo: Option<TitleInfo>)

  /** The two shuffles a request may perform. */
  predicate PicksValid(dailyPick: seq<nat>, weeklyPick: seq<nat>) {
    ValidPick(dailyPick, |Catalog.DailyTemplates|) && ValidPick(weeklyPick, |Catalog.WeeklyTemplates|)
  }

  /** The player part of the invariant every document the engine produces keeps. */
  predicate PlayerInOrder(p: Player) {
    && p.level >= 1 && 0 <= p.xp < 100 && p.totalXpEarned >= 0
    && 0 <= p.streak <= p.longestStreak
    && Ready(p) && 0 <= p.stats.value.health <= 100
    && p.statistics.value.totalMessages >= 0
    && p.statistics.value.totalXpEarned == p.totalXpEarned
    && p.title == TitleFor(p.totalXpEarned).name && p.titleLevel == TitleFor(p.totalXpEarned).level
    && NoDuplicates(p.badges)
  }

  /** The invariant every document the engine produces keeps. */
  predicate WellFormed(d: Document) {
    PlayerInOrder(d.player) && DailyInOrder(d.dailyQuests) && WeeklyInOrder(d.weeklyQuests)
  }

  lemma DefaultWellFormed(boot: Clock)
    ensures WellFormed(Catalog.DefaultDocument(boot))
  {
    assert InTier(Catalog.Titles[0], 0);
  }

  /** What the first half of `awardXP` settles: the player after health,
      streak, XP and `updateStatistics`, and the figures of the award. */
  datatype Credit = Credit(player: Player, multiplierTenths: int, baseXp: int, xp: int)

  /** `updateHealth`, the streak update and multiplier, the base XP, the
      award with level rollover, and `updateStatistics` with its title update. */
  function Credited(p: Player, message: string, clock: Clock): (c: Credit)
    requires StatisticsOrDefault(p).totalMessages != -1
    ensures c.baseXp == BaseXp(message) && c.multiplierTenths == MultiplierTenths(c.player.streak)
    ensures c.xp * 10 <= c.baseXp * c.multiplierTenths < c.xp * 10 + 10 && c.xp >= c.baseXp
    ensures var q := c.player;
      && Ready(q) && q.name == p.name && q.badges == p.badges
      && q.totalXpEarned == p.totalXpEarned + c.xp
      && q.level * 100 + q.xp == p.level * 100 + p.xp + c.xp
      && q.statistics.value.totalMessages == StatisticsOrDefault(p).totalMessages + 1
      && q.statistics.value.totalXpEarned == StatisticsOrDefault(p).totalXpEarned + c.xp
      && q.lastMessageTime == clock.nowMs && q.lastMessageDay == Today(clock)
      && q.title == TitleFor(q.totalXpEarned).name && q.titleLevel == TitleFor(q.totalXpEarned).level
    ensures c.player.streak == StreakUpdated(p, clock).streak
    ensures PlayerInOrder(p) ==> PlayerInOrder(c.player)
  {
    var p1 := StreakUpdated(HealthUpdated(p, clock.nowMs), clock);
    var multiplier := MultiplierTenths(p1.streak);
    var baseXp := BaseXp(message);
    var xp := AwardedXp(baseXp, multiplier);
    var x := XpApplied(p1, xp);
    var s := StatisticsUpdated(x, xp);
    var q := TitleUpdated(s).0;
    assert StatisticsOrDefault(x) == StatisticsOrDefault(p);
    assert PlayerInOrder(p) ==> PlayerInOrder(q) by {
      if PlayerInOrder(p) {
        CreditKeepsOrder(p, message, clock);
      }
    }
    Credit(q, multiplier, baseXp, xp)
  }

  /** The steps of `Credited` keep the player invariant. */
  lemma CreditKeepsOrder(p: Player, message: string, clock: Clock)
    requires PlayerInOrder(p)
    ensures var p1 := StreakUpdated(HealthUpdated(p, clock.nowMs), clock);
      var xp := AwardedXp(BaseXp(message), MultiplierTenths(p1.streak));
      PlayerInOrder(TitleUpdated(StatisticsUpdated(XpApplied(p1, xp), xp)).0)
  {
    var p1 := StreakUpdated(HealthUpdated(p, clock.nowMs), clock);
    assert 0 <= p1.stats.value.health <= 100;
    assert 0 <= p1.streak;
  }

  /** The second half of `awardXP`: `updateQuestProgress`, `checkBadges`, the
      final `updateAchievementTitle`, and the returned object. */
  function Finished(d: Document, c: Credit, message: string, clock: Clock, dailyPick: seq<nat>, weeklyPick: seq<nat>): (r: (Document, AwardResult))
    requires PicksValid(dailyPick, weeklyPick) && Ready(c.player)
    ensures var q := QuestsUpdated(d.(player := c.player), message, c.xp, clock, dailyPick, weeklyPick);
      var t := TitleFor(c.player.totalXpEarned);
      && r.0 == q.(player := r.0.player)
      && r.1.newBadges == Unlocked(Catalog.Badges, c.player.badges, q.player, clock.hour, clock.weekday)
      && r.0.player == q.player.(badges := c.player.badges + Keys(r.1.newBadges), title := t.name, titleLevel := t.level)
      && r.1 == AwardResult(c.xp, c.multiplierTenths, c.baseXp, c.player.streak, r.1.newBadges,
                            Some(TitleInfo(c.player.title != t.name, t)))
  {
    var q := QuestsUpdated(d.(player := c.player), message, c.xp, clock, dailyPick, weeklyPick);
    var scan := Scan(q.player, clock.hour, clock.weekday);
    var titled := TitleUpdated(scan.0);
    (q.(player := titled.0), AwardResult(c.xp, c.multiplierTenths, c.baseXp, titled.0.streak, scan.1, Some(titled.1)))
  }

  /** `awardXP`: a rejected message leaves the document alone. */
  function Award(d: Document, message: string, clock: Clock, dailyPick: seq<nat>, weeklyPick: seq<nat>): (r: (Document, AwardResult))
    requires PicksValid(dailyPick, weeklyPick)
    requires IsValidMessage(message) ==> StatisticsOrDefault(d.player).totalMessages != -1
    ensures !IsValidMessage(message) ==> r.0 == d && r.1 == AwardResult(0, 10, 0, d.player.streak, [], None)
  {
    if !IsValidMessage(message) then (d, AwardResult(0, 10, 0, d.player.streak, [], None))
    else Finished(d, Credited(d.player, message, clock), message, clock, dailyPick, weeklyPick)
  }

  /** A valid message earns the floor of its base XP times the multiplier of
      the updated streak; the award lands in the total, in `level*100 + xp`,
      and in the statistics block, which counts one more message. */
  lemma AwardAccounting(d: Document, message: string, clock: Clock, dailyPick: seq<nat>, weeklyPick: seq<nat>)
    requires PicksValid(dailyPick, weeklyPick)
    requires StatisticsOrDefault(d.player).totalMessages != -1
    requires IsValidMessage(message)
    ensures var (e, r) := Award(d, message, clock, dailyPick, weeklyPick);
      var p, q := d.player, e.player;
      && r.baseXp == BaseXp(message)
      && r.multiplierTenths == MultiplierTenths(r.streak) && r.streak == q.streak
      && r.xp * 10 <= r.baseXp * r.multiplierTenths < r.xp * 10 + 10
      && q.totalXpEarned == p.totalXpEarned + r.xp
      && q.level * 100 + q.xp == p.level * 100 + p.xp + r.xp
      && q.statistics.Some?
      && q.statistics.value.totalMessages == StatisticsOrDefault(p).totalMessages + 1
      && q.statistics.value.totalXpEarned == StatisticsOrDefault(p).totalXpEarned + r.xp
      && q.lastMessageTime == clock.nowMs && q.lastMessageDay == Today(clock)
  {
    var c := Credited(d.player, message, clock);
    var q := QuestsUpdated(d.(player := c.player), message, c.xp, clock, dailyPick, weeklyPick);
    assert q.player.statistics.value.totalMessages == c.player.statistics.value.totalMessages;
  }

  /** The title report `awardXP` returns never says the title changed: the
      title was already brought up to date inside `updateStatistics`, and
      nothing in between alters the total XP. */
  lemma AwardNeverReportsTitleChange(d: Document, message: string, clock: Clock, dailyPick: seq<nat>, weeklyPick: seq<nat>)
    requires PicksValid(dailyPick, weeklyPick)
    requires StatisticsOrDefault(d.player).totalMessages != -1
    requires IsValidMessage(message)
    ensures var (e, r) := Award(d, message, clock, dailyPick, weeklyPick);
      && r.titleInfo == Some(TitleInfo(false, TitleFor(e.player.totalXpEarned)))
      && e.player.title == TitleFor(e.player.totalXpEarned).name
      && e.player.titleLevel == TitleFor(e.player.totalXpEarned).level
  {
  }

  /** The badges of a valid message: the old list followed by the keys of the
      reported new badges, which are exactly the unowned catalog entries whose
      condition holds for the player as the quest step left it; no key is
      ever listed twice. */
  lemma AwardBadgesAppendOnly(d: Document, message: string, clock: Clock, dailyPick: seq<nat>, weeklyPick: seq<nat>)
    requires PicksValid(dailyPick, weeklyPick)
    requires StatisticsOrDefault(d.player).totalMessages != -1
    requires IsValidMessage(message)
    ensures var (e, r) := Award(d, message, clock, dailyPick, weeklyPick);
      var c := Credited(d.player, message, clock);
      var q := QuestsUpdated(d.(player := c.player), message, c.xp, clock, dailyPick, weeklyPick);
      && e.player.badges == d.player.badges + Keys(r.newBadges)
      && r.newBadges == Unlocked(Catalog.Badges, d.player.badges, q.player, clock.hour, clock.weekday)
      && (NoDuplicates(d.player.badges) ==> NoDuplicates(e.player.badges))
  {
    var c := Credited(d.player, message, clock);
    var q := QuestsUpdated(d.(player := c.player), message, c.xp, clock, dailyPick, weeklyPick);
    if NoDuplicates(d.player.badges) {
      ScanKeepsBadgesDistinct(d.player.badges, q.player, clock.hour, clock.weekday);
    }
  }

  /** Every award, rejected or not, keeps the invariant. */
  lemma AwardPreservesWellFormed(d: Document, message: string, clock: Clock, dailyPick: seq<nat>, weeklyPick: seq<nat>)
    requires PicksValid(dailyPick, weeklyPick)
    requires WellFormed(d)
    ensures WellFormed(Award(d, message, clock, dailyPick, weeklyPick).0)
  {
    if IsValidMessage(message) {
      var c := Credited(d.player, message, clock);
      var q := QuestsUpdated(d.(player := c.player), message, c.xp, clock, dailyPick, weeklyPick);
      QuestsUpdatedInOrder(d.(player := c.player), message, c.xp, clock, dailyPick, weeklyPick);
      ScanKeepsBadgesDistinct(d.player.badges, q.player, clock.hour, clock.weekday);
    }
  }

  /** The first message of a fresh profile, such as "What is the meaning of
      discipline and consistency in daily life?": a long question earns 20 + 5
      base XP at multiplier 1.0. Sent on the day the default document was
      made, the streak stays 0; on any later day it starts at 1. */
  lemma FirstQuestionOfNewProfile(boot: Clock, message: string, clock: Clock, dailyPick: seq<nat>, weeklyPick: seq<nat>)
    requires PicksValid(dailyPick, weeklyPick)
    requires IsValidMessage(message) && JsLength(message) > 50 && '?' in message
    ensures var (e, r) := Award(Catalog.DefaultDocument(boot), message, clock, dailyPick, weeklyPick);
      && r.baseXp == 25 && r.multiplierTenths == 10 && r.xp == 25
      && e.player.xp == 25 && e.player.level == 1 && e.player.totalXpEarned == 25
      && e.player.statistics.Some? && e.player.statistics.value.totalMessages == 1
      && e.player.streak == (if Today(clock) == Today(boot) then 0 else 1)
  {
    var d := Catalog.DefaultDocument(boot);
    DefaultWellFormed(boot);
    FirstCredit(boot, message, clock);
    AwardAccounting(d, message, clock, dailyPick, weeklyPick);
    AwardPreservesWellFormed(d, message, clock, dailyPick, weeklyPick);
  }

  /** The credit part of `FirstQuestionOfNewProfile`: a streak of at most 1
      keeps the multiplier at 1.0. */
  lemma FirstCredit(boot: Clock, message: string, clock: Clock)
    requires JsLength(message) > 50 && '?' in message
    ensures var c := Credited(Catalog.DefaultDocument(boot).player, message, clock);
      && c.baseXp == 25 && c.multiplierTenths == 10 && c.xp == 25
      && c.player.streak == (if Today(clock) == Today(boot) then 0 else 1)
  {
    var p := Catalog.DefaultDocument(boot).player;
    var s := StreakUpdated(p, clock);
    assert s.streak == (if Today(clock) == Today(boot) then 0 else 1);
    assert MultiplierTenths(s.streak) == 10;
  }
}
