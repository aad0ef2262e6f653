/** The personality quiz of the client (quiz.js): ten Likert questions that
    move five trait scores, the four-letter code computed from them, and the
    test that decides whether the quiz is shown at all. */
module Quiz {
  import opened GameData
  import Reconcile

  datatype Trait = Creativity | Productivity | Energy | Kindness | Awareness

  /** An entry of `questions`; its text is only displayed and is not modelled. */
  datatype Question = Question(id: int, stat: Trait, weight: int)

  /** `questions` (quiz.js:32-43): each trait is asked twice. */
  const QuizQuestions: seq<Question> := [
    Question(1, Energy, 10), Question(2, Creativity, 10), Question(3, Awareness, 10),
    Question(4, Kindness, 10), Question(5, Productivity, 10), Question(6, Awareness, 10),
    Question(7, Energy, 10), Question(8, Creativity, 10), Question(9, Productivity, 10),
    Question(10, Kindness, 10)
  ]

  /** The scores `startQuiz` begins with: every trait at 50. */
  const InitialScores: map<Trait, int> :=
    map[Creativity := 50, Productivity := 50, Energy := 50, Kindness := 50, Awareness := 50]

  predicate AllTraits(scores: map<Trait, int>) {
    Creativity in scores && Productivity in scores && Energy in scores && Kindness in scores && Awareness in scores
  }

  predicate InRange(scores: map<Trait, int>, lo: int, hi: int) {
    forall t :: t in scores ==> lo <= scores[t] <= hi
  }

  /** `Math.max(0, Math.min(100, x))`. */
  function Clamp(x: int): (r: int)
    ensures 0 <= r <= 100
    ensures 0 <= x <= 100 ==> r == x
    ensures x < 0 ==> r == 0
    ensures x > 100 ==> r == 100
  {
    if x > 100 then 100 else if x < 0 then 0 else x
  }

  /** One answer to a question about `stat`: the score of that trait moves
      by `(value - 3) * 10` and is clamped; a trait without a score is left
      alone, as the `!== undefined` test does. */
  function Answered(scores: map<Trait, int>, stat: Trait, value: int): (r: map<Trait, int>)
    ensures r.Keys == scores.Keys
    ensures stat in scores ==> r[stat] == Clamp(scores[stat] + (value - 3) * 10)
    ensures forall t :: t in scores && t != stat ==> r[t] == scores[t]
    ensures stat !in scores ==> r == scores
  {
    if stat in scores then scores[stat := Clamp(scores[stat] + (value - 3) * 10)] else scores
  }

  /** The scores after answering the first `|answers|` questions in order. */
  function ScoresAfter(answers: seq<int>): (r: map<Trait, int>)
    requires |answers| <= |QuizQuestions|
    ensures AllTraits(r) && InRange(r, 0, 100)
  {
    if answers == [] then InitialScores
    else
      var k := |answers| - 1;
      Answered(ScoresAfter(answers[..k]), QuizQuestions[k].stat, answers[k])
  }

  /** How many of the first `n` questions ask about `t`. */
  function TimesAsked(t: Trait, n: int): (c: nat)
    requires 0 <= n <= |QuizQuestions|
    ensures c <= n
  {
    if n == 0 then 0 else TimesAsked(t, n - 1) + (if QuizQuestions[n - 1].stat == t then 1 else 0)
  }

  /** The ten questions ask about every trait exactly twice. */
  lemma EachTraitAskedTwice(t: Trait)
    ensures TimesAsked(t, |QuizQuestions|) == 2
  {
  }

  /** Answers on the five-point scale never reach the clamp: a trait asked
      `c` times so far lies within `20 * c` of 50. */
  lemma {:induction false} ScoresWithinAskedRange(answers: seq<int>, t: Trait)
    requires |answers| <= |QuizQuestions|
    requires forall i :: 0 <= i < |answers| ==> 1 <= answers[i] <= 5
    ensures var c := TimesAsked(t, |answers|);
      50 - 20 * c <= ScoresAfter(answers)[t] <= 50 + 20 * c
  {
    if answers != [] {
      var k := |answers| - 1;
      ScoresWithinAskedRange(answers[..k], t);
      TimesAskedAtMostTwice(t, k);
    }
  }

  lemma {:induction false} TimesAskedAtMostTwice(t: Trait, n: int)
    requires 0 <= n <= |QuizQuestions|
    ensures TimesAsked(t, n) <= 2
  {
    if n < |QuizQuestions| {
      TimesAskedGrows(t, n, |QuizQuestions|);
      EachTraitAskedTwice(t);
    } else {
      EachTraitAskedTwice(t);
    }
  }

  lemma {:induction false} TimesAskedGrows(t: Trait, m: int, n: int)
    requires 0 <= m <= n <= |QuizQuestions|
    ensures TimesAsked(t, m) <= TimesAsked(t, n)
    decreases n - m
  {
    if m < n {
      TimesAskedGrows(t, m, n - 1);
    }
  }

  /** A completed quiz answered on the five-point scale leaves every trait
      between 10 and 90. */
  lemma FinalScoresBounded(answers: seq<int>)
    requires |answers| == |QuizQuestions|
    requires forall i :: 0 <= i < |answers| ==> 1 <= answers[i] <= 5
    ensures InRange(ScoresAfter(answers), 10, 90)
  {
    forall t | t in ScoresAfter(answers) ensures 10 <= ScoresAfter(answers)[t] <= 90 {
      ScoresWithinAskedRange(answers, t);
      EachTraitAskedTwice(t);
    }
  }

  /** Neutral answers move nothing. */
  lemma {:induction false} NeutralAnswersKeepFifty(answers: seq<int>)
    requires |answers| <= |QuizQuestions|
    requires forall i :: 0 <= i < |answers| ==> answers[i] == 3
    ensures ScoresAfter(answers) == InitialScores
  {
    if answers != [] {
      NeutralAnswersKeepFifty(answers[..|answers| - 1]);
    }
  }

  /** Whether the trait is above 50; a missing score compares as false, as
      `undefined > 50` does. */
  predicate Above(scores: map<Trait, int>, t: Trait) {
    t in scores && scores[t] > 50
  }

  /** `calculatePersonalityType` (quiz.js:153-160). */
  function PersonalityType(scores: map<Trait, int>): (code: string)
    ensures |code| == 4
    ensures code[0] in {'E', 'I'} && (code[0] == 'E' <==> Above(scores, Energy))
    ensures code[1] in {'S', 'N'} && (code[1] == 'S' <==> Above(scores, Awareness))
    ensures code[2] in {'F', 'T'} && (code[2] == 'F' <==> Above(scores, Kindness))
    ensures code[3] in {'J', 'P'} && (code[3] == 'J' <==> Above(scores, Productivity))
  {
    [if Above(scores, Energy) then 'E' else 'I',
     if Above(scores, Awareness) then 'S' else 'N',
     if Above(scores, Kindness) then 'F' else 'T',
     if Above(scores, Productivity) then 'J' else 'P']
  }

  /** The creativity score plays no part in the code. */
  lemma CreativityIgnored(scores: map<Trait, int>, x: int)
    ensures PersonalityType(scores[Creativity := x]) == PersonalityType(scores)
  {
    var s := scores[Creativity := x];
    assert Above(s, Energy) == Above(scores, Energy);
    assert Above(s, Awareness) == Above(scores, Awareness);
    assert Above(s, Kindness) == Above(scores, Kindness);
    assert Above(s, Productivity) == Above(scores, Productivity);
  }

  /** All-neutral answers give the code INTP: no trait gets above 50. */
  lemma NeutralQuizIsINTP(answers: seq<int>)
    requires |answers| == |QuizQuestions|
    requires forall i :: 0 <= i < |answers| ==> answers[i] == 3
    ensures ScoresAfter(answers) == InitialScores
    ensures PersonalityType(ScoresAfter(answers)) == "INTP"
  {
    NeutralAnswersKeepFifty(answers);
  }

  /** The state of the quiz script: `currentQuestion` and `userScores`. The
      answers given so far are kept as a ghost history. */
  class QuizSession {
    var currentQuestion: int
    var userScores: map<Trait, int>
    ghost var answers: seq<int>

    /** The scores are those of the answers given, one per question asked. */
    ghost predicate Valid()
      reads this
    {
      0 <= currentQuestion <= |QuizQuestions| && |answers| == currentQuestion
      && userScores == ScoresAfter(answers)
    }

    /** The script's initial values, those of a fresh page. */
    constructor ()
      ensures Valid() && currentQuestion == 0 && userScores == InitialScores && answers == []
    {
      currentQuestion := 0;
      userScores := InitialScores;
      answers := [];
    }

    /** The state part of `startQuiz` (quiz.js:48-50). */
    method StartQuiz()
      modifies this
      ensures Valid() && currentQuestion == 0 && userScores == InitialScores && answers == []
    {
      currentQuestion := 0;
      userScores := InitialScores;
      answers := [];
    }

    /** `answerQuestion` (quiz.js:96-115). After the last question it does
        nothing; otherwise it scores the asked trait and moves on, and
        `finished` says whether that was the last question, on which the
        script calls `finishQuiz`. */
    method AnswerQuestion(value: int) returns (finished: bool)
      requires Valid()
      modifies this
      ensures Valid()
      ensures old(currentQuestion) >= |QuizQuestions| ==>
        !finished && currentQuestion == old(currentQuestion) && userScores == old(userScores) && answers == old(answers)
      ensures old(currentQuestion) < |QuizQuestions| ==>
        && currentQuestion == old(currentQuestion) + 1
        && userScores == Answered(old(userScores), QuizQuestions[old(currentQuestion)].stat, value)
        && answers == old(answers) + [value]
        && (finished <==> currentQuestion == |QuizQuestions|)
    {
      if currentQuestion >= |QuizQuestions| {
        return false;
      }
      var q := QuizQuestions[currentQuestion];
      var impact := (value - 3) * 10;
      if q.stat in userScores {
        var raised := userScores[q.stat] + impact;
        userScores := userScores[q.stat := Clamp(raised)];
      }
      answers := answers + [value];
      assert answers[..|answers| - 1] == old(answers);
      currentQuestion := currentQuestion + 1;
      finished := currentQuestion == |QuizQuestions|;
    }

    /** The code the script sends once the quiz is over. */
    method CalculatePersonalityType() returns (code: string)
      requires Valid()
      ensures code == PersonalityType(ScoresAfter(answers))
    {
      code := PersonalityType(userScores);
    }
  }

  /** What `checkQuizStatus` does with the stored game state. */
  datatype QuizAction = ShowQuiz | RetryLater | NoQuiz

  /** `checkQuizStatus` (quiz.js:12-30): no stored state means "try again in
      half a second"; a stored player whose personality type is missing,
      empty or "Unknown" gets the quiz. A stored state without a player
      throws inside the `try` and nothing happens. */
  function CheckQuizStatus(stored: Candidate): (a: QuizAction)
    ensures a == RetryLater <==> stored.Absent?
    ensures a == ShowQuiz <==>
      stored.WithPlayer? && stored.doc.player.personalityType in {None, Some(""), Some("Unknown")}
  {
    match stored
    case Absent => RetryLater
    case WithoutPlayer => NoQuiz
    case WithPlayer(d) =>
      var t := d.player.personalityType;
      if t.None? || t.value == "" || t.value == "Unknown" then ShowQuiz else NoQuiz
  }

  /** The five scores as `finishQuiz` sends them. */
  function Submitted(scores: map<Trait, int>): Reconcile.ProfileScores
    requires AllTraits(scores)
  {
    Reconcile.ProfileScores(scores[Creativity], scores[Productivity], scores[Energy], scores[Kindness], scores[Awareness])
  }

  /** Once a completed quiz has been merged into a state, the quiz is not
      offered again: the stored type is a four-letter code. */
  lemma QuizNotRepeatedAfterMerge(d: Document, answers: seq<int>)
    requires |answers| == |QuizQuestions| && d.player.stats.Some?
    ensures var scores := ScoresAfter(answers);
      var r := Reconcile.MergeProfile(d, Some(Submitted(scores)), Some(PersonalityType(scores)));
      r.Some? && CheckQuizStatus(WithPlayer(r.value)) == NoQuiz
  {
    var code := PersonalityType(ScoresAfter(answers));
    assert code != "" && code != "Unknown" by {
      assert |code| == 4;
    }
  }
}
