/** The server's static tables: the default document, the title tiers, the
    badge catalog and the two quest template tables (server.js:28-107). */
module Catalog {
  import opened GameData

  const DefaultStats: Stats :=
    Stats(100, 100, 50, 50, 50, 50, None, None, None)

  const DefaultStatistics: Statistics :=
    Statistics(0, 0, 0, 0, 0, 1, "Analytical", 0, 0)

  /** `defaultGameState`. The source builds it once, when the server module is
      loaded, so its day and time fields come from that moment, `boot`. */
  function DefaultDocument(boot: Clock): (d: Document)
    ensures d.player.level == 1 && d.player.xp == 0 && d.player.totalXpEarned == 0
    ensures d.player.streak == 0 && d.player.badges == [] && d.player.stats == Some(DefaultStats)
    ensures d.dailyQuests == [] && d.weeklyQuests == []
    ensures d.player.lastMessageDay == d.lastQuestGenerationDay == Today(boot)
    ensures d.lastWeeklyQuestGenDate == Some(Today(boot)) && d.player.lastMessageTime == boot.nowMs
    ensures d.player.currentDay == boot.dayOfMonth
  {
    Document(
      Player("Adventurer", 1, 0, 0, "Curious Beginner", 1, Some(DefaultStats), 0, 0,
             boot.dayOfMonth, Today(boot), boot.nowMs, [], Some(DefaultStatistics), Some("Unknown")),
      [], [], Today(boot), Some(Today(boot)), 0)
  }

  /** The title tiers of `achievementTitles`, one constructor per entry;
      `maxXp == None` is the open (`Infinity`) bound of the top tier. */
  datatype Title = CuriousBeginner | ThoughtfulLearner | InsightfulMind | Philosopher | MasterOfDiscourse | LegendaryScholar
  {
    const level: int :=
      match this
      case CuriousBeginner => 1
      case ThoughtfulLearner => 2
      case InsightfulMind => 3
      case Philosopher => 4
      case MasterOfDiscourse => 5
      case LegendaryScholar => 6

    const minXp: int :=
      match this
      case CuriousBeginner => 0
      case ThoughtfulLearner => 100
      case InsightfulMind => 500
      case Philosopher => 1500
      case MasterOfDiscourse => 5000
      case LegendaryScholar => 10000

    const maxXp: Option<int> :=
      match this
      case CuriousBeginner => Some(99)
      case ThoughtfulLearner => Some(499)
      case InsightfulMind => Some(1499)
      case Philosopher => Some(4999)
      case MasterOfDiscourse => Some(9999)
      case LegendaryScholar => None

    const name: string :=
      match this
      case CuriousBeginner => "Curious Beginner"
      case ThoughtfulLearner => "Thoughtful Learner"
      case InsightfulMind => "Insightful Mind"
      case Philosopher => "Philosopher"
      case MasterOfDiscourse => "Master of Discourse"
      case LegendaryScholar => "Legendary Scholar"

    const icon: string :=
      match this
      case CuriousBeginner => "\U{1F331}"
      case ThoughtfulLearner => "\U{1F4DA}"
      case InsightfulMind => "\U{1F4AD}"
      case Philosopher => "\U{1F9E0}"
      case MasterOfDiscourse => "\U{1F451}"
      case LegendaryScholar => "\U{2B50}"

    const description: string :=
      match this
      case CuriousBeginner => "Your journey begins with the first question"
      case ThoughtfulLearner => "Every conversation deepens your understanding"
      case InsightfulMind => "Your questions reveal layers of meaning"
      case Philosopher => "Wisdom flows through your words"
      case MasterOfDiscourse => "Your insights illuminate the path for others"
      case LegendaryScholar => "A seeker of infinite knowledge and understanding"
  }

  /** `achievementTitles`, in ascending order of XP. */
  const Titles: seq<Title> := [CuriousBeginner, ThoughtfulLearner, InsightfulMind, Philosopher, MasterOfDiscourse, LegendaryScholar]

  /** The tiers start at 0, each begins one past the end of the one before,
      only the last is open, and their names are pairwise different. */
  lemma TitlesContiguous()
    ensures |Titles| == 6 && Titles[0].minXp == 0 && Titles[|Titles| - 1].maxXp == None
    ensures forall i :: 0 <= i < |Titles| - 1 ==> Titles[i].maxXp == Some(Titles[i + 1].minXp - 1)
    ensures forall i, j :: 0 <= i < j < |Titles| ==> Titles[i].name != Titles[j].name
    ensures forall i :: 0 <= i < |Titles| ==> Titles[i].level == i + 1
  {
  }

  /** The entries of `badgeDefinitions`, one constructor per key; `key` is
      the string stored in `player.badges`. */
  datatype Badge =
    | FlameOn | BigBrain | HealthGuardian | Legendary | Bibliophile | TechWizard | CreativeGenius
    | Consistent | Master | QuestMaster | NightOwl | EarlyBird | WeekendWarrior | SocialButterfly
    | DeepThinker
  {
    const key: string :=
      match this
      case FlameOn => "flame-on"
      case BigBrain => "big-brain"
      case HealthGuardian => "health-guardian"
      case Legendary => "legendary"
      case Bibliophile => "bibliophile"
      case TechWizard => "tech-wizard"
      case CreativeGenius => "creative-genius"
      case Consistent => "consistent"
      case Master => "master"
      case QuestMaster => "quest-master"
      case NightOwl => "night-owl"
      case EarlyBird => "early-bird"
      case WeekendWarrior => "weekend-warrior"
      case SocialButterfly => "social-butterfly"
      case DeepThinker => "deep-thinker"

    const name: string :=
      match this
      case FlameOn => "\U{1F525} Flame On"
      case BigBrain => "\U{1F9E0} Big Brain"
      case HealthGuardian => "\U{1F49A} Health Guardian"
      case Legendary => "\U{1F31F} Legendary"
      case Bibliophile => "\U{1F4DA} Bibliophile"
      case TechWizard => "\U{1F916} Tech Wizard"
      case CreativeGenius => "\U{1F3A8} Creative Genius"
      case Consistent => "\U{1F91D} Consistent"
      case Master => "\U{1F451} Master"
      case QuestMaster => "\U{1F3AF} Quest Master"
      case NightOwl => "\U{1F989} Night Owl"
      case EarlyBird => "\U{1F305} Early Bird"
      case WeekendWarrior => "\U{2694}\U{FE0F} Weekend Warrior"
      case SocialButterfly => "\U{1F98B} Social Butterfly"
      case DeepThinker => "\U{1F914} Deep Thinker"

    const description: string :=
      match this
      case FlameOn => "Achieve a 7-day streak"
      case BigBrain => "Earn 50+ XP in a single message"
      case HealthGuardian => "Maintain 80+ health for 7 days"
      case Legendary => "Achieve a 30-day streak"
      case Bibliophile => "Earn 1,000 total XP"
      case TechWizard => "Send 20 technical questions"
      case CreativeGenius => "Send 20 creative questions"
      case Consistent => "Never break a streak (reach level 10)"
      case Master => "Reach level 50"
      case QuestMaster => "Complete all daily quests"
      case NightOwl => "Send a message between 11PM and 4AM"
      case EarlyBird => "Send a message between 5AM and 9AM"
      case WeekendWarrior => "Active on a weekend"
      case SocialButterfly => "Send 100 total messages"
      case DeepThinker => "Average XP per message > 20"
  }

  /** `badgeDefinitions`, in the order `Object.entries` visits it. */
  const Badges: seq<Badge> := [
    FlameOn, BigBrain, HealthGuardian, Legendary, Bibliophile, TechWizard, CreativeGenius,
    Consistent, Master, QuestMaster, NightOwl, EarlyBird, WeekendWarrior, SocialButterfly,
    DeepThinker
  ]

  /** Object keys are unique: the catalog lists every badge once, and no two
      badges share a key. */
  lemma BadgeKeysDistinct()
    ensures |Badges| == 15
    ensures forall i, j :: 0 <= i < j < |Badges| ==> Badges[i].key != Badges[j].key
  {
  }

  /** The quest templates of `dailyQuestTemplates` and `weeklyQuestTemplates`,
      one constructor per entry. */
  datatype QuestTemplate =
    | SendThreeMessages
    | AskLongQuestion
    | KeepFocus
    | EarnBigMessage
    | SendFiveMessages
    | AskPhilosophical
    | BuildConversation
    | ReachLongMessage
    | SendFiftyMessages
    | FocusThreeDays
    | EarnWeeklyXp
    | CompleteDailyQuests
    | AskTwentyQuestions
  {
    const title: string :=
      match this
      case SendThreeMessages => "Send 3 meaningful messages"
      case AskLongQuestion => "Ask a question with 10+ words"
      case KeepFocus => "Maintain 70+ Focus during session"
      case EarnBigMessage => "Earn 50+ XP in one message"
      case SendFiveMessages => "Send 5 messages in one day"
      case AskPhilosophical => "Ask a philosophical question"
      case BuildConversation => "Build a 3-message conversation"
      case ReachLongMessage => "Reach 500+ character question"
      case SendFiftyMessages => "Send 50 messages this week"
      case FocusThreeDays => "Maintain 80+ Focus for 3 days"
      case EarnWeeklyXp => "Earn 500 XP this week"
      case CompleteDailyQuests => "Complete 10 Daily Quests"
      case AskTwentyQuestions => "Ask 20 questions"

    const target: int :=
      match this
      case SendThreeMessages => 3
      case AskLongQuestion => 1
      case KeepFocus => 1
      case EarnBigMessage => 1
      case SendFiveMessages => 5
      case AskPhilosophical => 1
      case BuildConversation => 3
      case ReachLongMessage => 1
      case SendFiftyMessages => 50
      case FocusThreeDays => 3
      case EarnWeeklyXp => 500
      case CompleteDailyQuests => 10
      case AskTwentyQuestions => 20

    const kind: QuestKind :=
      match this
      case SendThreeMessages => Messages
      case AskLongQuestion => LongQuestion
      case KeepFocus => FocusMaintenance
      case EarnBigMessage => HighXpMessage
      case SendFiveMessages => Volume
      case AskPhilosophical => Philosophical
      case BuildConversation => Streak
      case ReachLongMessage => LongMessage
      case SendFiftyMessages => Volume
      case FocusThreeDays => FocusWeek
      case EarnWeeklyXp => XpGain
      case CompleteDailyQuests => DailyQuestsWeek
      case AskTwentyQuestions => Questions

    const xp: int :=
      match this
      case SendThreeMessages => 50
      case AskLongQuestion => 40
      case KeepFocus => 45
      case EarnBigMessage => 60
      case SendFiveMessages => 75
      case AskPhilosophical => 35
      case BuildConversation => 55
      case ReachLongMessage => 50
      case SendFiftyMessages => 300
      case FocusThreeDays => 250
      case EarnWeeklyXp => 400
      case CompleteDailyQuests => 350
      case AskTwentyQuestions => 200
  }

  const DailyTemplates: seq<QuestTemplate> := [
    SendThreeMessages, AskLongQuestion, KeepFocus, EarnBigMessage,
    SendFiveMessages, AskPhilosophical, BuildConversation, ReachLongMessage
  ]

  const WeeklyTemplates: seq<QuestTemplate> := [
    SendFiftyMessages, FocusThreeDays, EarnWeeklyXp, CompleteDailyQuests, AskTwentyQuestions
  ]

  /** Every template asks for at least one unit of progress. */
  lemma TemplateTargetsPositive()
    ensures |DailyTemplates| == 8 && |WeeklyTemplates| == 5
    ensures forall t :: t in DailyTemplates ==> t.target >= 1
    ensures forall t :: t in WeeklyTemplates ==> t.target >= 1
  {
  }
}
