/** The game-state document that the chat server receives from the browser
    with every request, mutates and sends back. In the source it is a JSON
    tree; here each nested object is a record value. */
module GameData {

  datatype Option<T> = None | Some(value: T)

  /** Milliseconds in a day, the divisor behind every day count of the server. */
  const MsPerDay: int := 86400000

  /** What the server reads from the clock during one request: the timestamp
      `Date.now()`, and the local hour (`getHours`), weekday (`getDay`, 0 is
      Sunday) and day of the month (`getDate`). */
  datatype Clock = Clock(nowMs: int, hour: int, weekday: int, dayOfMonth: int)

  /** The calendar day containing a timestamp, as a day number (day 0 holds
      the epoch). Two timestamps have the same `toDateString()` exactly when
      they have the same day number. */
  function DayOf(ms: int): int {
    ms / MsPerDay
  }

  function Today(clock: Clock): int {
    DayOf(clock.nowMs)
  }

  /** The timestamp of the start of a day: what `new Date(dateString)` gives
      for a date string written by `toDateString()`. */
  function MidnightMs(day: int): int {
    day * MsPerDay
  }

  /** `player.stats`. The quiz adds creativity, kindness and awareness, which
      the default block does not have. */
  datatype Stats = Stats(
    health: int, energy: int, focus: int, discipline: int, productivity: int, consistency: int,
    creativity: Option<int>, kindness: Option<int>, awareness: Option<int>)

  /** `player.statistics`. */
  datatype Statistics = Statistics(
    totalMessages: int,
    totalXpEarned: int,
    averageXpPerMessage: int,
    highestSingleMessageXp: int,
    totalHighQualityMessages: int,
    totalDaysActive: int,
    favoriteQuestionType: string,
    questsCompleted: int,
    dailyQuestsCompletedTotal: int)

  /** `gameState.player`. A block that may be missing from the document
      (`stats`, `statistics`, `personalityType`) is an `Option`. Days are day
      numbers, times are milliseconds. */
  datatype Player = Player(
    name: string,
    level: int,
    xp: int,
    totalXpEarned: int,
    title: string,
    titleLevel: int,
    stats: Option<Stats>,
    streak: int,
    longestStreak: int,
    currentDay: int,
    lastMessageDay: int,
    lastMessageTime: int,
    badges: seq<string>,
    statistics: Option<Statistics>,
    personalityType: Option<string>)

  /** The player blocks that the quest and badge steps read without a guard;
      `awardXP` puts both in place before those steps run. */
  predicate Ready(p: Player) {
    p.stats.Some? && p.statistics.Some?
  }

  /** The `type` tag of a quest, one constructor per tag of the two template tables. */
  datatype QuestKind =
    | Messages | LongQuestion | FocusMaintenance | HighXpMessage | Volume | Philosophical
    | Streak | LongMessage | FocusWeek | XpGain | DailyQuestsWeek | Questions

  /** A quest instance: the template's fields plus its position `id`, its
      `progress` and its `completed` flag. */
  datatype Quest = Quest(
    title: string, target: int, kind: QuestKind, xp: int,
    id: int, progress: int, completed: bool)

  /** A JSON value where a game state may be found: nothing (absent, `null`
      or otherwise falsy), an object without a truthy `player`, or a document. */
  datatype Candidate = Absent | WithoutPlayer | WithPlayer(doc: Document)

  /** The whole document. A missing `weeklyQuests` list behaves exactly like an
      empty one and is written as `[]`; a missing `lastWeeklyQuestGenDate` is `None`. */
  datatype Document = Document(
    player: Player,
    dailyQuests: seq<Quest>,
    weeklyQuests: seq<Quest>,
    lastQuestGenerationDay: int,
    lastWeeklyQuestGenDate: Option<int>,
    messageCount: int)
}
