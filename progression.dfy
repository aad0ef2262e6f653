/** The single steps of the progression engine, as functions on the player
    record (server.js:111-146, 231-287): the validity gate, health decay,
    streak continuity and its multiplier, the XP award with level rollover,
    the statistics block and the title tiers. */
module Progression {
  import opened GameData
  import opened Text
  import opened Catalog

  function Max(a: int, b: int): int {
    if a >= b then a else b
  }

  // ---------------------------------------------------------------------------
  // Validity gate (server.js:261-264)
  // ---------------------------------------------------------------------------

  const Reserved: seq<string> := ["hi", "hello", "ok"]

  /** A message earns anything only if its trimmed, lower-cased form is at
      least ten UTF-16 code units long and is not one of the reserved greetings.
      Every greeting is shorter than that, so the gate is a length test on the
      trimmed message, in which each U+0130 counts one unit more because
      lower-casing turns it into two characters. */
  function IsValidMessage(message: string): (valid: bool)
    ensures valid <==> JsLength(Trim(message)) + multiset(Trim(message))[DottedCapitalI] >= 10
  {
    var t := ToLower(Trim(message));
    ReservedAreShort();
    JsLength(t) >= 10 && t !in Reserved
  }

  lemma ReservedAreShort()
    ensures forall w :: w in Reserved ==> JsLength(w) < 10
  {
    assert JsLength("hello") == 5 by {
      assert forall k :: 0 <= k < 5 ==> "hello"[k] as int <= 0xFFFF;
    }
  }

  // ---------------------------------------------------------------------------
  // Health decay (server.js:134-146)
  // ---------------------------------------------------------------------------

  /** `Math.floor(daysSinceMessage * 10)`: the elapsed time in whole tenths of a day. */
  function HealthLoss(elapsedMs: int): (loss: int)
    ensures loss * MsPerDay <= elapsedMs * 10 < (loss + 1) * MsPerDay
    ensures elapsedMs > MsPerDay ==> loss >= 10
  {
    elapsedMs * 10 / MsPerDay
  }

  /** The health left after `elapsedMs` without a message: it drops only when
      more than a day has passed, and then by the loss, but not below 0. */
  function DecayedHealth(health: int, elapsedMs: int): (h: int)
    ensures elapsedMs <= MsPerDay ==> h == health
    ensures elapsedMs > MsPerDay ==> h == Max(0, health - HealthLoss(elapsedMs))
    ensures 0 <= health ==> 0 <= h <= health
    ensures elapsedMs > MsPerDay ==> h == 0 || h <= health - 10
  {
    if elapsedMs > MsPerDay then Max(0, health - HealthLoss(elapsedMs)) else health
  }

  /** The stats block, or the default block when the document has none. */
  function StatsOrDefault(p: Player): Stats {
    if p.stats.Some? then p.stats.value else Catalog.DefaultStats
  }

  /** `updateHealth`: substitute the default stats block if it is missing,
      decay health by the time since the last message, and stamp the time. */
  function HealthUpdated(p: Player, nowMs: int): (r: Player)
    ensures r.stats.Some? && r.lastMessageTime == nowMs
    ensures r == p.(stats := r.stats, lastMessageTime := nowMs)
    ensures r.stats.value == StatsOrDefault(p).(health := r.stats.value.health)
    ensures r.stats.value.health == DecayedHealth(StatsOrDefault(p).health, nowMs - p.lastMessageTime)
  {
    var s := StatsOrDefault(p);
    p.(stats := Some(s.(health := DecayedHealth(s.health, nowMs - p.lastMessageTime))),
       lastMessageTime := nowMs)
  }

  // ---------------------------------------------------------------------------
  // Streak continuity and multiplier (server.js:111-132)
  // ---------------------------------------------------------------------------

  /** `Math.floor((now - new Date(lastDay)) / 86400000)`: the whole days
      elapsed since the start of `day`, rounded down also before that start. */
  function DaysSince(nowMs: int, day: int): (n: int)
    ensures n * MsPerDay <= nowMs - MidnightMs(day) < (n + 1) * MsPerDay
  {
    (nowMs - MidnightMs(day)) / MsPerDay
  }

  /** Counting whole days from the start of `day` gives the difference of day numbers. */
  lemma DaysSinceIsDayGap(nowMs: int, day: int)
    ensures DaysSince(nowMs, day) == DayOf(nowMs) - day
  {
    var q, r := nowMs / MsPerDay, nowMs % MsPerDay;
    assert nowMs == q * MsPerDay + r && 0 <= r < MsPerDay;
    assert nowMs - MidnightMs(day) == (q - day) * MsPerDay + r;
  }

  /** The streak part of `getStreakMultiplier`: on a new calendar day the streak
      grows by one after a one-day gap and restarts at 1 after any other gap,
      and the day is recorded; on the same day nothing changes. */
  function StreakUpdated(p: Player, clock: Clock): (r: Player)
    ensures Today(clock) == p.lastMessageDay ==> r == p
    ensures Today(clock) == p.lastMessageDay + 1 ==> r.streak == p.streak + 1
    ensures Today(clock) != p.lastMessageDay && Today(clock) != p.lastMessageDay + 1 ==> r.streak == 1
    ensures r.lastMessageDay == Today(clock)
    ensures Today(clock) != p.lastMessageDay ==>
      r == p.(streak := r.streak, currentDay := clock.dayOfMonth, lastMessageDay := Today(clock))
  {
    var today := Today(clock);
    if today != p.lastMessageDay then
      DaysSinceIsDayGap(clock.nowMs, p.lastMessageDay);
      var streak := if DaysSince(clock.nowMs, p.lastMessageDay) == 1 then p.streak + 1 else 1;
      p.(streak := streak, currentDay := clock.dayOfMonth, lastMessageDay := today)
    else
      p
  }

  /** The streak multiplier in tenths: 1.0, 1.5, 2.0, 3.0 or 5.0. */
  function MultiplierTenths(streak: int): (m: int)
    ensures m in {10, 15, 20, 30, 50}
  {
    if streak >= 30 then 50
    else if streak >= 14 then 30
    else if streak >= 7 then 20
    else if streak >= 3 then 15
    else 10
  }

  /** A longer streak never earns a smaller multiplier. */
  lemma MultiplierMonotone(a: int, b: int)
    requires a <= b
    ensures MultiplierTenths(a) <= MultiplierTenths(b)
  {
  }

  /** The tier a streak falls in decides its multiplier. */
  lemma MultiplierTiers(streak: int)
    ensures MultiplierTenths(streak) == 50 <==> streak >= 30
    ensures MultiplierTenths(streak) == 30 <==> 14 <= streak < 30
    ensures MultiplierTenths(streak) == 20 <==> 7 <= streak < 14
    ensures MultiplierTenths(streak) == 15 <==> 3 <= streak < 7
    ensures MultiplierTenths(streak) == 10 <==> streak < 3
  {
  }

  // ---------------------------------------------------------------------------
  // XP award and level rollover (server.js:269-279)
  // ---------------------------------------------------------------------------

  /** 10 points, or 20 for a message longer than 50 UTF-16 code units, plus 5
      if it holds a question mark. The length is that of the untrimmed message. */
  function BaseXp(message: string): (b: int)
    ensures b in {10, 15, 20, 25}
    ensures b >= 20 <==> JsLength(message) > 50
    ensures b % 10 == 5 <==> '?' in message
  {
    (if JsLength(message) > 50 then 20 else 10) + (if '?' in message then 5 else 0)
  }

  /** `Math.floor(baseXp * multiplier)` with the multiplier in tenths. */
  function AwardedXp(baseXp: int, multiplierTenths: int): (xp: int)
    requires baseXp >= 0 && multiplierTenths >= 10
    ensures xp * 10 <= baseXp * multiplierTenths < xp * 10 + 10
    ensures xp >= baseXp
  {
    baseXp * multiplierTenths / 10
  }

  /** Adding XP: whole hundreds of accumulated XP become levels and the rest is kept. */
  function XpApplied(p: Player, gain: int): (r: Player)
    ensures r.level * 100 + r.xp == p.level * 100 + p.xp + gain
    ensures r.totalXpEarned == p.totalXpEarned + gain
    ensures 0 <= p.xp < 100 && gain >= 0 ==> 0 <= r.xp < 100 && r.level >= p.level
    ensures p.xp + gain < 100 ==> r.level == p.level && r.xp == p.xp + gain
    ensures r == p.(level := r.level, xp := r.xp, totalXpEarned := r.totalXpEarned)
  {
    var x := p.xp + gain;
    if x >= 100 then
      p.(level := p.level + x / 100, xp := x % 100, totalXpEarned := p.totalXpEarned + gain)
    else
      p.(xp := x, totalXpEarned := p.totalXpEarned + gain)
  }

  // ---------------------------------------------------------------------------
  // Statistics (server.js:246-257)
  // ---------------------------------------------------------------------------

  /** `Math.round(a / b)`: the floor of `a / b + 1/2`, that is, the nearest
      integer with halves rounded up, for a divisor of either sign. */
  function RoundDiv(a: int, b: int): (r: int)
    requires b != 0
    ensures b > 0 ==> 2 * b * r <= 2 * a + b < 2 * b * r + 2 * b
    ensures b < 0 ==> 2 * b * r + 2 * b < 2 * a + b <= 2 * b * r
  {
    var q := 2 * a + b;
    if b > 0 then
      var r := q / (2 * b);
      assert q == (2 * b) * r + q % (2 * b);
      r
    else
      var r := (-q) / (-2 * b);
      assert -q == (-2 * b) * r + (-q) % (-2 * b);
      r
  }

  function StatisticsOrDefault(p: Player): Statistics {
    if p.statistics.Some? then p.statistics.value else Catalog.DefaultStatistics
  }

  /** The statistics part of `updateStatistics` (the title is updated by a
      separate step): one more message, the award added, the running maxima,
      the high-quality count and the rounded mean. */
  function StatisticsUpdated(p: Player, xp: int): (r: Player)
    requires StatisticsOrDefault(p).totalMessages != -1
    ensures r.statistics.Some?
    ensures r == p.(statistics := r.statistics, longestStreak := r.longestStreak)
    ensures var s, t := StatisticsOrDefault(p), r.statistics.value;
      && t.totalMessages == s.totalMessages + 1
      && t.totalXpEarned == s.totalXpEarned + xp
      && t.highestSingleMessageXp == Max(s.highestSingleMessageXp, xp)
      && t.totalHighQualityMessages == s.totalHighQualityMessages + (if xp >= 20 then 1 else 0)
      && t.totalDaysActive == Max(s.totalDaysActive, p.streak)
      && (t.totalMessages > 0 ==>
            2 * t.totalMessages * t.averageXpPerMessage <= 2 * t.totalXpEarned + t.totalMessages
            < 2 * t.totalMessages * t.averageXpPerMessage + 2 * t.totalMessages)
      && (t.totalMessages < 0 ==>
            2 * t.totalMessages * t.averageXpPerMessage + 2 * t.totalMessages
            < 2 * t.totalXpEarned + t.totalMessages <= 2 * t.totalMessages * t.averageXpPerMessage)
      && t == s.(totalMessages := t.totalMessages, totalXpEarned := t.totalXpEarned,
                 averageXpPerMessage := t.averageXpPerMessage,
                 highestSingleMessageXp := t.highestSingleMessageXp,
                 totalHighQualityMessages := t.totalHighQualityMessages,
                 totalDaysActive := t.totalDaysActive)
    ensures r.longestStreak == Max(p.longestStreak, p.streak)
  {
    var s := StatisticsOrDefault(p);
    var total := s.totalMessages + 1;
    var earned := s.totalXpEarned + xp;
    var t := s.(
      totalMessages := total,
      totalXpEarned := earned,
      averageXpPerMessage := RoundDiv(earned, total),
      highestSingleMessageXp := if xp > s.highestSingleMessageXp then xp else s.highestSingleMessageXp,
      totalHighQualityMessages := if xp >= 20 then s.totalHighQualityMessages + 1 else s.totalHighQualityMessages,
      totalDaysActive := if p.streak > s.totalDaysActive then p.streak else s.totalDaysActive);
    p.(statistics := Some(t),
       longestStreak := if p.streak > p.longestStreak then p.streak else p.longestStreak)
  }

  // ---------------------------------------------------------------------------
  // Title tiers (server.js:63-70, 231-244)
  // ---------------------------------------------------------------------------

  predicate InTier(t: Title, x: int) {
    t.minXp <= x && (t.maxXp.None? || x <= t.maxXp.value)
  }

  /** The index of the first tier whose range holds `x`, if any. */
  function FirstTier(tiers: seq<Title>, x: int): (r: Option<nat>)
    ensures r.Some? ==> r.value < |tiers| && InTier(tiers[r.value], x)
    ensures r.Some? ==> forall j :: 0 <= j < r.value ==> !InTier(tiers[j], x)
    ensures r.None? ==> forall j :: 0 <= j < |tiers| ==> !InTier(tiers[j], x)
  {
    if tiers == [] then None
    else if InTier(tiers[0], x) then Some(0)
    else match FirstTier(tiers[1..], x)
      case Some(i) => Some(i + 1)
      case None => None
  }

  /** The tier `updateAchievementTitle` picks: the first that holds `x`, and the
      first tier of the table when none does. */
  function TitleFor(x: int): (t: Title)
    ensures t in Catalog.Titles
    ensures (exists i :: 0 <= i < |Catalog.Titles| && InTier(Catalog.Titles[i], x)) ==> InTier(t, x)
    ensures (forall i :: 0 <= i < |Catalog.Titles| ==> !InTier(Catalog.Titles[i], x)) ==>
      t == Catalog.Titles[0]
  {
    match FirstTier(Catalog.Titles, x)
    case Some(i) => Catalog.Titles[i]
    case None => Catalog.Titles[0]
  }

  /** Since the tiers are contiguous from 0 and the last is open, every
      non-negative total lies in exactly one tier, and that is the one picked. */
  lemma TitleForIsTheTier(x: int)
    requires x >= 0
    ensures InTier(TitleFor(x), x)
    ensures forall i :: 0 <= i < |Catalog.Titles| && InTier(Catalog.Titles[i], x) ==>
      Catalog.Titles[i] == TitleFor(x)
  {
    Catalog.TitlesContiguous();
    var tiers := Catalog.Titles;
    var k := if x < 100 then 0 else if x < 500 then 1 else if x < 1500 then 2
             else if x < 5000 then 3 else if x < 10000 then 4 else 5;
    assert InTier(tiers[k], x);
    forall i | 0 <= i < |tiers| && i != k ensures !InTier(tiers[i], x) {
    }
  }

  /** More XP never means a lower title. */
  lemma TitleMonotone(x: int, y: int)
    requires 0 <= x <= y
    ensures TitleFor(x).level <= TitleFor(y).level
  {
    TitleForIsTheTier(x);
    TitleForIsTheTier(y);
  }

  datatype TitleInfo = TitleInfo(titleChanged: bool, newTitle: Title)

  /** `updateAchievementTitle`: store the tier of the total XP and report
      whether its name differs from the stored title. */
  function TitleUpdated(p: Player): (r: (Player, TitleInfo))
    ensures r.1.newTitle == TitleFor(p.totalXpEarned)
    ensures r.0 == p.(title := r.1.newTitle.name, titleLevel := r.1.newTitle.level)
    ensures r.1.titleChanged <==> p.title != r.1.newTitle.name
  {
    var t := TitleFor(p.totalXpEarned);
    (p.(title := t.name, titleLevel := t.level), TitleInfo(p.title != t.name, t))
  }
}
