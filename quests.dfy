/** Daily and weekly quests: generation from the template tables and the
    progress rules applied to every valid message (server.js:161-229). */
module Quests {
  import opened GameData
  import opened Text
  import Catalog

  /** What the progress rules read from a message: `message.length` (in
      UTF-16 code units), `message.includes('?')` and
      `message.split(/\s+/).length`. */
  datatype MessageFacts = MessageFacts(length: int, hasQuestion: bool, wordCount: int)

  function FactsOf(message: string): (m: MessageFacts)
    ensures m.length == JsLength(message) && (m.hasQuestion <==> '?' in message)
    ensures m.wordCount == 1 + Runs(message)
  {
    MessageFacts(JsLength(message), '?' in message, WordCount(message))
  }

  // ---------------------------------------------------------------- generation

  /** The outcome of a shuffle: the table positions of the three templates that
      end up first. They are three different positions of the table. */
  predicate ValidPick(pick: seq<nat>, n: nat) {
    |pick| == 3
    && (forall i :: 0 <= i < 3 ==> pick[i] < n)
    && (forall i, j :: 0 <= i < j < 3 ==> pick[i] != pick[j])
  }

  function Instantiate(t: Catalog.QuestTemplate, id: int): Quest {
    Quest(t.title, t.target, t.kind, t.xp, id, 0, false)
  }

  /** Three fresh quests from the picked templates, numbered 0, 1 and 2. */
  function FreshQuests(templates: seq<Catalog.QuestTemplate>, pick: seq<nat>): (r: seq<Quest>)
    requires ValidPick(pick, |templates|)
    ensures |r| == 3
    ensures forall i :: 0 <= i < 3 ==>
      r[i].id == i && r[i].progress == 0 && !r[i].completed
      && Instantiate(templates[pick[i]], i) == r[i]
  {
    [Instantiate(templates[pick[0]], 0), Instantiate(templates[pick[1]], 1), Instantiate(templates[pick[2]], 2)]
  }

  predicate DistinctTitles(templates: seq<Catalog.QuestTemplate>) {
    forall i, j :: 0 <= i < j < |templates| ==> templates[i].title != templates[j].title
  }

  /** The daily template table has pairwise different titles. */
  lemma DailyTitlesDistinct()
    ensures DistinctTitles(Catalog.DailyTemplates)
  {
  }

  /** The weekly template table has pairwise different titles. */
  lemma WeeklyTitlesDistinct()
    ensures DistinctTitles(Catalog.WeeklyTemplates)
  {
  }

  /** Three different positions of a table with different titles give three
      quests with different titles: three different templates. */
  lemma FreshQuestsAreDifferent(templates: seq<Catalog.QuestTemplate>, pick: seq<nat>)
    requires ValidPick(pick, |templates|) && DistinctTitles(templates)
    ensures var r := FreshQuests(templates, pick);
      forall i, j :: 0 <= i < j < 3 ==> r[i].title != r[j].title
  {
    var r := FreshQuests(templates, pick);
    forall i, j | 0 <= i < j < 3 ensures r[i].title != r[j].title {
      if pick[i] < pick[j] {
        assert templates[pick[i]].title != templates[pick[j]].title;
      } else {
        assert templates[pick[j]].title != templates[pick[i]].title;
      }
    }
  }

  /** `generateDailyQuests`: a new list of three quests once per calendar day. */
  function DailyGenerated(d: Document, today: int, pick: seq<nat>): (r: Document)
    requires ValidPick(pick, |Catalog.DailyTemplates|)
    ensures r.lastQuestGenerationDay == today
    ensures r == d.(dailyQuests := r.dailyQuests, lastQuestGenerationDay := today)
    ensures today == d.lastQuestGenerationDay ==> r == d
    ensures today != d.lastQuestGenerationDay ==>
      r.dailyQuests == FreshQuests(Catalog.DailyTemplates, pick) && |r.dailyQuests| == 3
      && forall i :: 0 <= i < 3 ==> r.dailyQuests[i].id == i && r.dailyQuests[i].progress == 0 && !r.dailyQuests[i].completed
  {
    if today != d.lastQuestGenerationDay then
      d.(dailyQuests := FreshQuests(Catalog.DailyTemplates, pick), lastQuestGenerationDay := today)
    else d
  }

  /** On the day the default document was built, daily generation leaves it
      alone, since its marker already names that day, while weekly quests are
      due, since its weekly list is empty. */
  lemma BootDayGeneration(boot: Clock, clock: Clock, pick: seq<nat>)
    requires ValidPick(pick, |Catalog.DailyTemplates|)
    requires Today(clock) == Today(boot)
    ensures DailyGenerated(Catalog.DefaultDocument(boot), Today(clock), pick) == Catalog.DefaultDocument(boot)
    ensures WeeklyDue(Catalog.DefaultDocument(boot), clock.nowMs)
  {
  }

  /** A second generation on the same day keeps the list of the first,
      whatever the second shuffle would have picked. */
  lemma DailyGenerationSettles(d: Document, today: int, pick1: seq<nat>, pick2: seq<nat>)
    requires ValidPick(pick1, |Catalog.DailyTemplates|) && ValidPick(pick2, |Catalog.DailyTemplates|)
    ensures var once := DailyGenerated(d, today, pick1);
      DailyGenerated(once, today, pick2) == once
  {
  }

  function Abs(x: int): int {
    if x < 0 then -x else x
  }

  /** `Math.ceil(ms / MsPerDay)` for a non-negative `ms`. */
  function CeilDays(ms: int): (n: int)
    requires ms >= 0
    ensures (n - 1) * MsPerDay < ms <= n * MsPerDay
  {
    (ms + MsPerDay - 1) / MsPerDay
  }

  /** The timestamp `new Date(gameState.lastWeeklyQuestGenDate || 0)`: the start
      of the recorded day, or the epoch when nothing was recorded. */
  function WeeklyGenMs(d: Document): int {
    match d.lastWeeklyQuestGenDate
    case Some(day) => MidnightMs(day)
    case None => 0
  }

  /** The regeneration test of `generateWeeklyQuests`. Rounding the day count
      up makes "at least 7 days" mean "more than six whole days", in either
      direction of the clock. */
  function WeeklyDue(d: Document, nowMs: int): (due: bool)
    ensures due <==> |d.weeklyQuests| == 0 || Abs(nowMs - WeeklyGenMs(d)) > 6 * MsPerDay
  {
    var n := CeilDays(Abs(nowMs - WeeklyGenMs(d)));
    assert n >= 7 <==> Abs(nowMs - WeeklyGenMs(d)) > 6 * MsPerDay by {
      if n >= 7 {
        assert (n - 1) * MsPerDay >= 6 * MsPerDay;
      } else {
        assert n * MsPerDay <= 6 * MsPerDay;
      }
    }
    |d.weeklyQuests| == 0 || n >= 7
  }

  /** `generateWeeklyQuests`: three fresh quests when the list is empty or
      the recorded generation day is more than six days away. */
  function WeeklyGenerated(d: Document, clock: Clock, pick: seq<nat>): (r: Document)
    requires ValidPick(pick, |Catalog.WeeklyTemplates|)
    ensures r == d.(weeklyQuests := r.weeklyQuests, lastWeeklyQuestGenDate := r.lastWeeklyQuestGenDate)
    ensures !WeeklyDue(d, clock.nowMs) ==> r == d
    ensures WeeklyDue(d, clock.nowMs) ==>
      r.lastWeeklyQuestGenDate == Some(Today(clock))
      && r.weeklyQuests == FreshQuests(Catalog.WeeklyTemplates, pick) && |r.weeklyQuests| == 3
      && forall i :: 0 <= i < 3 ==> r.weeklyQuests[i].id == i && r.weeklyQuests[i].progress == 0 && !r.weeklyQuests[i].completed
  {
    if WeeklyDue(d, clock.nowMs) then
      d.(weeklyQuests := FreshQuests(Catalog.WeeklyTemplates, pick), lastWeeklyQuestGenDate := Some(Today(clock)))
    else d
  }

  /** Right after a generation the list is not yet due again: the new
      generation day is less than a day away from now. */
  lemma WeeklyGenerationSettles(d: Document, clock: Clock, pick1: seq<nat>, pick2: seq<nat>)
    requires ValidPick(pick1, |Catalog.WeeklyTemplates|) && ValidPick(pick2, |Catalog.WeeklyTemplates|)
    ensures var once := WeeklyGenerated(d, clock, pick1);
      WeeklyGenerated(once, clock, pick2) == once
  {
    var once := WeeklyGenerated(d, clock, pick1);
    if WeeklyDue(d, clock.nowMs) {
      var start := MidnightMs(Today(clock));
      assert start <= clock.nowMs < start + MsPerDay;
    }
  }

  // ------------------------------------------------------------------ progress

  /** Whether a daily quest of this kind moves forward by one (server.js:202-209).
      Volume and streak quests move on every valid message, the kinds that
      only weekly quests have never move, and every other rule needs
      something of the message, the award or the focus; `DailyAdvancesRules`
      gives each rule exactly. */
  function DailyAdvances(kind: QuestKind, m: MessageFacts, xp: int, focus: int): (adv: bool)
    ensures kind == Volume || kind == Streak ==> adv
    ensures kind == FocusWeek || kind == XpGain || kind == DailyQuestsWeek || kind == Questions ==> !adv
    ensures adv && (kind == LongQuestion || kind == Philosophical) ==> m.hasQuestion
    ensures adv && (kind == Messages || kind == HighXpMessage) ==> xp > 0
    ensures adv && (kind == Philosophical || kind == LongMessage) ==> m.length > 100
  {
    match kind
    case Messages => xp > 0
    case LongQuestion => m.hasQuestion && m.wordCount >= 10
    case FocusMaintenance => focus >= 70
    case HighXpMessage => xp >= 50
    case Volume => true
    case Philosophical => m.hasQuestion && m.length > 100
    case Streak => true
    case LongMessage => m.length >= 500
    case _ => false
  }

  /** The daily rule table kind by kind: each of the six conditional kinds
      advances exactly when its own test passes. */
  lemma DailyAdvancesRules(kind: QuestKind, m: MessageFacts, xp: int, focus: int)
    ensures kind == Messages ==> (DailyAdvances(kind, m, xp, focus) <==> xp > 0)
    ensures kind == LongQuestion ==> (DailyAdvances(kind, m, xp, focus) <==> m.hasQuestion && m.wordCount >= 10)
    ensures kind == FocusMaintenance ==> (DailyAdvances(kind, m, xp, focus) <==> focus >= 70)
    ensures kind == HighXpMessage ==> (DailyAdvances(kind, m, xp, focus) <==> xp >= 50)
    ensures kind == Philosophical ==> (DailyAdvances(kind, m, xp, focus) <==> m.hasQuestion && m.length > 100)
    ensures kind == LongMessage ==> (DailyAdvances(kind, m, xp, focus) <==> m.length >= 500)
  {
  }

  /** One daily quest under one message: a completed quest is left alone; any
      other advances by its rule and is completed once it reaches its target. */
  function DailyStep(q: Quest, m: MessageFacts, xp: int, focus: int): (r: Quest)
    ensures q.completed ==> r == q
    ensures !q.completed ==>
      r.progress == q.progress + (if DailyAdvances(q.kind, m, xp, focus) then 1 else 0)
      && (r.completed <==> r.progress >= q.target)
    ensures r == q.(progress := r.progress, completed := r.completed)
  {
    if q.completed then q
    else
      var progress := if DailyAdvances(q.kind, m, xp, focus) then q.progress + 1 else q.progress;
      q.(progress := progress, completed := progress >= q.target)
  }

  /** How much a weekly quest of this kind moves forward (server.js:222-224):
      one for a message with XP or with a question, the whole award for the
      XP quest, and nothing for any other kind. */
  function WeeklyGain(kind: QuestKind, m: MessageFacts, xp: int): (g: int)
    ensures kind == Volume ==> (g == 1 <==> xp > 0) && (g == 0 <==> xp <= 0)
    ensures kind == Questions ==> (g == 1 <==> m.hasQuestion) && (g == 0 <==> !m.hasQuestion)
    ensures kind == XpGain ==> g == xp
    ensures kind != Volume && kind != Questions && kind != XpGain ==> g == 0
    ensures xp >= 0 ==> g >= 0
  {
    match kind
    case Volume => if xp > 0 then 1 else 0
    case Questions => if m.hasQuestion then 1 else 0
    case XpGain => xp
    case _ => 0
  }

  function WeeklyStep(q: Quest, m: MessageFacts, xp: int): (r: Quest)
    ensures q.completed ==> r == q
    ensures !q.completed ==>
      r.progress == q.progress + WeeklyGain(q.kind, m, xp) && (r.completed <==> r.progress >= q.target)
    ensures r == q.(progress := r.progress, completed := r.completed)
  {
    if q.completed then q
    else
      var progress := q.progress + WeeklyGain(q.kind, m, xp);
      q.(progress := progress, completed := progress >= q.target)
  }

  /** The daily `forEach`, position by position. */
  function DailyPass(qs: seq<Quest>, m: MessageFacts, xp: int, focus: int): (r: seq<Quest>)
    ensures |r| == |qs| && forall i :: 0 <= i < |qs| ==> r[i] == DailyStep(qs[i], m, xp, focus)
  {
    seq(|qs|, i requires 0 <= i < |qs| => DailyStep(qs[i], m, xp, focus))
  }

  function WeeklyPass(qs: seq<Quest>, m: MessageFacts, xp: int): (r: seq<Quest>)
    ensures |r| == |qs| && forall i :: 0 <= i < |qs| ==> r[i] == WeeklyStep(qs[i], m, xp)
  {
    seq(|qs|, i requires 0 <= i < |qs| => WeeklyStep(qs[i], m, xp))
  }

  predicate AllCompleted(qs: seq<Quest>) {
    forall i :: 0 <= i < |qs| ==> qs[i].completed
  }

  predicate NewlyCompletedAt(before: seq<Quest>, after: seq<Quest>, i: int)
    requires |before| == |after| && 0 <= i < |before|
  {
    !before[i].completed && after[i].completed
  }

  /** The number of positions completed in `after` but not in `before`,
      counted from the back so that a loop over a growing prefix unfolds it. */
  function NewlyCompleted(before: seq<Quest>, after: seq<Quest>): (n: nat)
    requires |before| == |after|
    ensures n <= |before|
  {
    if before == [] then 0
    else
      var k := |before| - 1;
      NewlyCompleted(before[..k], after[..k]) + (if NewlyCompletedAt(before, after, k) then 1 else 0)
  }

  lemma {:induction false} NewlyCompletedPositive(before: seq<Quest>, after: seq<Quest>)
    requires |before| == |after|
    ensures NewlyCompleted(before, after) > 0 <==> exists i :: 0 <= i < |before| && NewlyCompletedAt(before, after, i)
  {
    if before != [] {
      var k := |before| - 1;
      NewlyCompletedPositive(before[..k], after[..k]);
      if exists i :: 0 <= i < |before| && NewlyCompletedAt(before, after, i) {
        var i :| 0 <= i < |before| && NewlyCompletedAt(before, after, i);
        if i < k {
          assert NewlyCompletedAt(before[..k], after[..k], i);
        }
      }
      if exists i :: 0 <= i < k && NewlyCompletedAt(before[..k], after[..k], i) {
        var i :| 0 <= i < k && NewlyCompletedAt(before[..k], after[..k], i);
        assert NewlyCompletedAt(before, after, i);
      }
    }
  }

  /** The increment of `dailyQuestsCompletedTotal` in one pass: 1 when some
      quest completed during the pass and the whole list is then complete. */
  function DailyBonus(before: seq<Quest>, after: seq<Quest>): (b: int)
    requires |before| == |after|
    ensures b == 0 || b == 1
    ensures b == 1 ==> AllCompleted(after) && exists i :: 0 <= i < |before| && NewlyCompletedAt(before, after, i)
  {
    NewlyCompletedPositive(before, after);
    if NewlyCompleted(before, after) > 0 && AllCompleted(after) then 1 else 0
  }

  /** The pass credits the day's set exactly when it finishes the set: the
      list was not all complete before the message and is all complete after. */
  lemma DailyBonusWhenSetCompletes(qs: seq<Quest>, m: MessageFacts, xp: int, focus: int)
    ensures var after := DailyPass(qs, m, xp, focus);
      (DailyBonus(qs, after) == 1 <==> !AllCompleted(qs) && AllCompleted(after))
      && (DailyBonus(qs, after) == 0 || DailyBonus(qs, after) == 1)
  {
    var after := DailyPass(qs, m, xp, focus);
    NewlyCompletedPositive(qs, after);
    if !AllCompleted(qs) && AllCompleted(after) {
      var i :| 0 <= i < |qs| && !qs[i].completed;
      assert NewlyCompletedAt(qs, after, i);
    }
  }

  /** Once every daily quest is complete, later messages change nothing in
      the list and credit no further completed set. */
  lemma CompletedSetEarnsNothing(qs: seq<Quest>, m: MessageFacts, xp: int, focus: int)
    requires AllCompleted(qs)
    ensures DailyPass(qs, m, xp, focus) == qs
    ensures NewlyCompleted(qs, qs) == 0 && DailyBonus(qs, qs) == 0
  {
    NewlyCompletedPositive(qs, qs);
  }

  /** A daily list is in order when each progress lies between 0 and the
      target and a quest is completed exactly when it has reached its target. */
  predicate DailyInOrder(qs: seq<Quest>) {
    forall i :: 0 <= i < |qs| ==>
      0 <= qs[i].progress <= qs[i].target && (qs[i].completed <==> qs[i].progress >= qs[i].target)
  }

  /** A weekly list may overshoot its target (the xp quest adds whole awards). */
  predicate WeeklyInOrder(qs: seq<Quest>) {
    forall i :: 0 <= i < |qs| ==> 0 <= qs[i].progress && (qs[i].completed <==> qs[i].progress >= qs[i].target)
  }

  /** Progress never goes back, completed quests are untouched and stay
      completed, and an in-order list stays in order. */
  lemma DailyPassMonotone(qs: seq<Quest>, m: MessageFacts, xp: int, focus: int)
    ensures var r := DailyPass(qs, m, xp, focus);
      (forall i :: 0 <= i < |qs| ==>
        r[i].progress >= qs[i].progress && r[i].id == qs[i].id && r[i].kind == qs[i].kind
        && (qs[i].completed ==> r[i] == qs[i]))
      && (DailyInOrder(qs) ==> DailyInOrder(r))
  {
  }

  lemma WeeklyPassMonotone(qs: seq<Quest>, m: MessageFacts, xp: int)
    requires xp >= 0
    ensures var r := WeeklyPass(qs, m, xp);
      (forall i :: 0 <= i < |qs| ==>
        r[i].progress >= qs[i].progress && r[i].id == qs[i].id && r[i].kind == qs[i].kind
        && (qs[i].completed ==> r[i] == qs[i]))
      && (WeeklyInOrder(qs) ==> WeeklyInOrder(r))
  {
  }

  /** The statistics block after a daily pass from `before` to `after`: the
      completed quests and the completed set credited. */
  function Counted(s: Statistics, before: seq<Quest>, after: seq<Quest>): Statistics
    requires |before| == |after|
  {
    s.(questsCompleted := s.questsCompleted + NewlyCompleted(before, after),
       dailyQuestsCompletedTotal := s.dailyQuestsCompletedTotal + DailyBonus(before, after))
  }

  /** The generation calls that open `updateQuestProgress`. */
  function Generated(d: Document, clock: Clock, dailyPick: seq<nat>, weeklyPick: seq<nat>): (r: Document)
    requires ValidPick(dailyPick, |Catalog.DailyTemplates|) && ValidPick(weeklyPick, |Catalog.WeeklyTemplates|)
    ensures r.player == d.player && r.messageCount == d.messageCount
  {
    WeeklyGenerated(DailyGenerated(d, Today(clock), dailyPick), clock, weeklyPick)
  }

  /** `updateQuestProgress`: generation, then the daily and the weekly pass,
      crediting each daily completion and each completed set to the statistics. */
  function QuestsUpdated(d: Document, message: string, xp: int, clock: Clock, dailyPick: seq<nat>, weeklyPick: seq<nat>): (r: Document)
    requires Ready(d.player)
    requires ValidPick(dailyPick, |Catalog.DailyTemplates|) && ValidPick(weeklyPick, |Catalog.WeeklyTemplates|)
    ensures Ready(r.player) && r.player == d.player.(statistics := r.player.statistics)
    ensures r.messageCount == d.messageCount && r.lastQuestGenerationDay == Today(clock)
    ensures var g := Generated(d, clock, dailyPick, weeklyPick);
      var s, t := d.player.statistics.value, r.player.statistics.value;
      |r.dailyQuests| == |g.dailyQuests|
      && t == s.(questsCompleted := t.questsCompleted, dailyQuestsCompletedTotal := t.dailyQuestsCompletedTotal)
      && t.questsCompleted == s.questsCompleted + NewlyCompleted(g.dailyQuests, r.dailyQuests)
      && t.dailyQuestsCompletedTotal == s.dailyQuestsCompletedTotal + DailyBonus(g.dailyQuests, r.dailyQuests)
    ensures var g := Generated(d, clock, dailyPick, weeklyPick);
      && r.lastWeeklyQuestGenDate == g.lastWeeklyQuestGenDate
      && r.dailyQuests == DailyPass(g.dailyQuests, FactsOf(message), xp, d.player.stats.value.focus)
      && r.weeklyQuests == WeeklyPass(g.weeklyQuests, FactsOf(message), xp)
  {
    var g := Generated(d, clock, dailyPick, weeklyPick);
    var m := FactsOf(message);
    var daily := DailyPass(g.dailyQuests, m, xp, g.player.stats.value.focus);
    g.(dailyQuests := daily, weeklyQuests := WeeklyPass(g.weeklyQuests, m, xp),
       player := g.player.(statistics := Some(Counted(g.player.statistics.value, g.dailyQuests, daily))))
  }

  /** Generation and progress keep both quest lists in order, given that every
      template asks for at least one unit and the award is not negative. */
  lemma QuestsUpdatedInOrder(d: Document, message: string, xp: int, clock: Clock, dailyPick: seq<nat>, weeklyPick: seq<nat>)
    requires Ready(d.player) && xp >= 0
    requires ValidPick(dailyPick, |Catalog.DailyTemplates|) && ValidPick(weeklyPick, |Catalog.WeeklyTemplates|)
    requires DailyInOrder(d.dailyQuests) && WeeklyInOrder(d.weeklyQuests)
    ensures var r := QuestsUpdated(d, message, xp, clock, dailyPick, weeklyPick);
      DailyInOrder(r.dailyQuests) && WeeklyInOrder(r.weeklyQuests)
  {
    Catalog.TemplateTargetsPositive();
    var g := Generated(d, clock, dailyPick, weeklyPick);
    assert DailyInOrder(g.dailyQuests) by {
      var d1 := DailyGenerated(d, Today(clock), dailyPick);
      if Today(clock) != d.lastQuestGenerationDay {
        forall i | 0 <= i < 3 ensures d1.dailyQuests[i].target >= 1 {
          assert Catalog.DailyTemplates[dailyPick[i]] in Catalog.DailyTemplates;
        }
      }
    }
    assert WeeklyInOrder(g.weeklyQuests) by {
      var d1 := DailyGenerated(d, Today(clock), dailyPick);
      if WeeklyDue(d1, clock.nowMs) {
        forall i | 0 <= i < 3 ensures g.weeklyQuests[i].target >= 1 {
          assert Catalog.WeeklyTemplates[weeklyPick[i]] in Catalog.WeeklyTemplates;
        }
      }
    }
    var m := FactsOf(message);
    DailyPassMonotone(g.dailyQuests, m, xp, g.player.stats.value.focus);
    WeeklyPassMonotone(g.weeklyQuests, m, xp);
  }
}
