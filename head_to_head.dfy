/**
 * The two-team, four-round trivia game (game.js): one `gameState` record drives
 * the rounds, the 30-second answer timer, the once-per-question input latch and
 * the scoring (1 point, or 2 for a correct answer within 10 seconds); the results
 * step names the winner and the best round. The page's question editor edits the
 * per-round question lists in the same state.
 */
module HeadToHead {
  import opened Common
  import opened Seqs
  import opened Text

  datatype Team = A | B

  datatype Round = Countries | Football | Puzzles | Speed

  /** `gameState.rounds`: the fixed order in which rounds are played. */
  const Rounds: seq<Round> := [Countries, Football, Puzzles, Speed]

  datatype Screen = IntroScreen | InstructionsScreen | GameScreen | ResultsScreen | EditorScreen

  datatype Question = Question(id: string, text: string, options: seq<string>, correct: nat, icon: string)

  /** One entry of `roundScores`: the points each team made in that round. */
  datatype TeamScores = TeamScores(a: nat, b: nat)
  {
    function Of(t: Team): nat
    {
      if t == A then a else b
    }

    function Add(t: Team, points: nat): TeamScores
    {
      if t == A then this.(a := a + points) else this.(b := b + points)
    }

    function Total(): nat
    {
      a + b
    }
  }

  const TimerSeconds: int := 30
  /** A correct answer given in less than this many milliseconds scores 2. */
  const QuickAnswerMs: int := 10000
  const DefaultTeamAName: string := "الفريق أ"
  const DefaultTeamBName: string := "الفريق ب"
  const DefaultIcon: string := "❓"

  function Other(t: Team): Team
  {
    if t == A then B else A
  }

  function RoundIndex(r: Round): nat
  {
    match r
    case Countries => 0
    case Football => 1
    case Puzzles => 2
    case Speed => 3
  }

  /** An object with one entry per round (`roundScores`, `questionsDatabase`). */
  datatype PerRound<V> = PerRound(countries: V, football: V, puzzles: V, speed: V)
  {
    function Get(r: Round): V
    {
      match r
      case Countries => countries
      case Football => football
      case Puzzles => puzzles
      case Speed => speed
    }

    function Set(r: Round, v: V): (t: PerRound<V>)
      ensures t.Get(r) == v
      ensures forall r' :: r' != r ==> t.Get(r') == Get(r')
    {
      match r
      case Countries => this.(countries := v)
      case Football => this.(football := v)
      case Puzzles => this.(puzzles := v)
      case Speed => this.(speed := v)
    }
  }

  /** The zeroed `roundScores` of the initial state and of `resetGame`. */
  function ZeroTable(): PerRound<TeamScores>
  {
    PerRound(TeamScores(0, 0), TeamScores(0, 0), TeamScores(0, 0), TeamScores(0, 0))
  }

  /** A team's points summed over the four rounds. */
  function RoundSum(table: PerRound<TeamScores>, t: Team): nat
  {
    table.countries.Of(t) + table.football.Of(t) + table.puzzles.Of(t) + table.speed.Of(t)
  }

  /** Adding points to one round and team raises that team's sum and no other. */
  lemma RoundSumAdd(table: PerRound<TeamScores>, r: Round, t: Team, points: nat)
    ensures RoundSum(table.Set(r, table.Get(r).Add(t, points)), t) == RoundSum(table, t) + points
    ensures RoundSum(table.Set(r, table.Get(r).Add(t, points)), Other(t)) == RoundSum(table, Other(t))
  {
  }

  /** The `bestRound` reduce: keeps `best` unless a later round has a strictly larger total. */
  function BestRoundFrom(table: PerRound<TeamScores>, rounds: seq<Round>, best: Round): Round
  {
    if rounds == [] then best
    else BestRoundFrom(table, rounds[1..],
                       if table.Get(rounds[0]).Total() > table.Get(best).Total() then rounds[0] else best)
  }

  /** `Object.keys(roundScores).reduce(..., 'countries')`. */
  function BestRound(table: PerRound<TeamScores>): Round
  {
    BestRoundFrom(table, Rounds, Countries)
  }

  /** `best` has the largest total among the first `k` rounds and beats every earlier one strictly. */
  ghost predicate FirstMaxOfPrefix(table: PerRound<TeamScores>, k: nat, best: Round)
    requires k <= |Rounds|
  {
    && RoundIndex(best) < k
    && (forall j :: 0 <= j < k ==> table.Get(Rounds[j]).Total() <= table.Get(best).Total())
    && (forall j :: 0 <= j < RoundIndex(best) ==> table.Get(Rounds[j]).Total() < table.Get(best).Total())
  }

  lemma {:induction false} BestRoundFromFirstMax(table: PerRound<TeamScores>, k: nat, best: Round)
    requires 1 <= k <= |Rounds|
    requires FirstMaxOfPrefix(table, k, best)
    ensures FirstMaxOfPrefix(table, |Rounds|, BestRoundFrom(table, Rounds[k..], best))
    decreases |Rounds| - k
  {
    if k < |Rounds| {
      var next := Rounds[k];
      assert RoundIndex(next) == k;
      var best' := if table.Get(next).Total() > table.Get(best).Total() then next else best;
      assert FirstMaxOfPrefix(table, k + 1, best');
      assert Rounds[k..][1..] == Rounds[k + 1..];
      BestRoundFromFirstMax(table, k + 1, best');
    }
  }

  /**
   * The best round has the largest total of both teams; on equal totals the
   * earliest round in play order wins.
   */
  lemma BestRoundIsFirstMaximum(table: PerRound<TeamScores>)
    ensures forall r: Round :: table.Get(r).Total() <= table.Get(BestRound(table)).Total()
    ensures forall r: Round :: RoundIndex(r) < RoundIndex(BestRound(table)) ==>
      table.Get(r).Total() < table.Get(BestRound(table)).Total()
  {
    assert FirstMaxOfPrefix(table, 1, Countries);
    BestRoundFromFirstMax(table, 1, Countries);
    assert BestRound(table) == BestRoundFrom(table, Rounds[1..], Countries);
    var best := BestRound(table);
    forall r: Round
      ensures table.Get(r).Total() <= table.Get(best).Total()
      ensures RoundIndex(r) < RoundIndex(best) ==> table.Get(r).Total() < table.Get(best).Total()
    {
      assert Rounds[RoundIndex(r)] == r by {
        match r
        case Countries =>
        case Football =>
        case Puzzles =>
        case Speed =>
      }
    }
  }

  /** The winner's name and score that `saveToLeaderboard` stores. */
  datatype FinalResult = FinalResult(winner: string, score: nat)

  /**
   * The entry `saveToLeaderboard` makes: the strictly higher team is named with
   * its score; a tie names both teams, joined by " و ". The score is always the
   * larger of the two.
   */
  function FinalOutcome(nameA: string, nameB: string, scoreA: nat, scoreB: nat): (r: FinalResult)
    ensures r.score >= scoreA && r.score >= scoreB && (r.score == scoreA || r.score == scoreB)
    ensures scoreA > scoreB ==> r.winner == nameA
    ensures scoreB > scoreA ==> r.winner == nameB
    ensures scoreA == scoreB ==> r.winner == nameA + " و " + nameB
  {
    if scoreA > scoreB then FinalResult(nameA, scoreA)
    else if scoreB > scoreA then FinalResult(nameB, scoreB)
    else FinalResult(nameA + " و " + nameB, scoreA)
  }

  /** The ranks `showResults` gives the two teams; 0 is the draw badge "=". */
  datatype TeamRanks = TeamRanks(a: nat, b: nat)

  /**
   * Rank 1 goes exactly to the team with the strictly higher score and the
   * other team gets 2; a tie gives both the draw rank 0.
   */
  function Ranks(scoreA: nat, scoreB: nat): (r: TeamRanks)
    ensures r.a == 1 <==> scoreA > scoreB
    ensures r.b == 1 <==> scoreB > scoreA
    ensures r.a == 0 <==> scoreA == scoreB
    ensures r.a == 0 <==> r.b == 0
    ensures r.a != 0 ==> {r.a, r.b} == {1, 2}
  {
    if scoreA > scoreB then TeamRanks(1, 2)
    else if scoreB > scoreA then TeamRanks(2, 1)
    else TeamRanks(0, 0)
  }

  /** Where `loadQuestion` comes to rest: a question to show, or the results. */
  datatype Position = Position(roundIndex: nat, round: Round, index: nat, finished: bool)

  /**
   * `loadQuestion` from round `round` (number `ri`) at question `qi`: an index at
   * or past the round's length moves on through `nextRound`, which shows the
   * results once the round number reaches `rounds.length` and otherwise starts the
   * next round at question 0.
   */
  function Settle(db: PerRound<seq<Question>>, ri: nat, round: Round, qi: nat): Position
    decreases |Rounds| - ri
  {
    if qi < |db.Get(round)| then Position(ri, round, qi, false)
    else if ri + 1 >= |Rounds| then Position(ri + 1, round, qi, true)
    else Settle(db, ri + 1, Rounds[ri + 1], 0)
  }

  /** `nextRound` once the round number has become `ri`. */
  function AfterRound(db: PerRound<seq<Question>>, ri: nat, round: Round, qi: nat): Position
  {
    if ri >= |Rounds| then Position(ri, round, qi, true)
    else Settle(db, ri, Rounds[ri], 0)
  }

  /**
   * Starting a round in play order, `loadQuestion` either lands on an existing
   * question of a round at or after it, or shows the results with the round
   * number at `rounds.length`; it shows the results exactly when the current
   * round has no question left and every later round is empty.
   */
  lemma {:induction false} SettleCorrect(db: PerRound<seq<Question>>, ri: nat, round: Round, qi: nat)
    requires ri < |Rounds| && round == Rounds[ri]
    ensures var p := Settle(db, ri, round, qi);
      && ri <= p.roundIndex
      && (!p.finished ==> p.roundIndex < |Rounds| && p.round == Rounds[p.roundIndex] && p.index < |db.Get(p.round)|)
      && (p.finished ==> p.roundIndex == |Rounds|)
      && (p.finished <==> qi >= |db.Get(round)| && forall j :: ri < j < |Rounds| ==> |db.Get(Rounds[j])| == 0)
    decreases |Rounds| - ri
  {
    if qi >= |db.Get(round)| && ri + 1 < |Rounds| {
      SettleCorrect(db, ri + 1, Rounds[ri + 1], 0);
    }
  }

  /** A text field is filled: `!!value` for a string. */
  predicate Truthy(id: Option<string>)
  {
    id.Some? && id.value != []
  }

  /** `questions.findIndex(q => q.id === id)` as an optional index. */
  function FindIndex(qs: seq<Question>, id: string): (r: Option<nat>)
    ensures r.Some? ==> r.value < |qs| && qs[r.value].id == id
    ensures r.Some? ==> forall j :: 0 <= j < r.value ==> qs[j].id != id
    ensures r.None? ==> forall j :: 0 <= j < |qs| ==> qs[j].id != id
  {
    if qs == [] then None
    else if qs[0].id == id then Some(0)
    else match FindIndex(qs[1..], id)
      case None => None
      case Some(i) => Some(i + 1)
  }

  function KeepOtherIds(id: string): Question -> bool
  {
    (q: Question) => q.id != id
  }

  /** `questions.filter(q => q.id !== id)`. */
  function WithoutId(qs: seq<Question>, id: string): seq<Question>
  {
    Filter(qs, KeepOtherIds(id))
  }

  /** Deleting by id removes every question with that id and keeps the others in order. */
  lemma WithoutIdCorrect(qs: seq<Question>, id: string)
    ensures forall q :: q in WithoutId(qs, id) <==> q in qs && q.id != id
    ensures IsSubsequence(WithoutId(qs, id), qs)
  {
    forall q ensures q in WithoutId(qs, id) <==> q in qs && q.id != id {
      FilterMembership(qs, KeepOtherIds(id), q);
    }
    FilterIsSubsequence(qs, KeepOtherIds(id));
  }

  /** `questions[0]?.icon || '❓'`: the icon a new question of the category gets. */
  function IconFor(questions: seq<Question>): string
  {
    if questions != [] && questions[0].icon != [] then questions[0].icon else DefaultIcon
  }

  /**
   * The category's list after `saveQuestion` accepts the form; `editing` is the id
   * of the question being edited, if any. An edit rewrites text, options and
   * answer of the first question with that id only, so every id, every icon and
   * the length are kept; an addition appends one question with id `newId`.
   */
  function SavedList(questions: seq<Question>, editing: Option<string>, text: string,
                     options: seq<string>, correct: nat, newId: string): (r: seq<Question>)
    ensures editing.Some? ==> |r| == |questions|
    ensures editing.Some? ==> forall i :: 0 <= i < |r| ==>
      r[i].id == questions[i].id && r[i].icon == questions[i].icon
    ensures editing.Some? ==> forall i :: 0 <= i < |r| ==>
      if questions[i].id == editing.value && forall j :: 0 <= j < i ==> questions[j].id != editing.value
      then r[i] == questions[i].(text := text, options := options, correct := correct)
      else r[i] == questions[i]
    ensures editing.None? ==> |r| == |questions| + 1 && r[..|questions|] == questions
    ensures editing.None? ==> r[|questions|] == Question(newId, text, options, correct, IconFor(questions))
  {
    match editing
    case Some(id) =>
      (match FindIndex(questions, id)
       case None => questions
       case Some(k) => questions[k := questions[k].(text := text, options := options, correct := correct)])
    case None => questions + [Question(newId, text, options, correct, IconFor(questions))]
  }

  class GameState {
    var currentScreen: Screen
    var currentTeam: Team
    var currentRound: Round
    var currentQuestionIndex: nat
    var teamAName: string
    var teamBName: string
    var teamAScore: nat
    var teamBScore: nat
    /** `gameState.timer !== null`: an interval is counting down. */
    var timerRunning: bool
    var timeLeft: int
    var currentQuestion: Option<Question>
    /** Clock reading, in milliseconds, when the current question was shown. */
    var questionStartTime: int
    var currentRoundIndex: nat
    var correctAnswers: nat
    var totalAnswers: nat
    var quickAnswers: nat
    /** `totalTime`, kept in milliseconds. */
    var totalTimeMs: int
    var roundScores: PerRound<TeamScores>
    var inputLocked: bool
    /** The `warning` class of the timer circle. */
    var warning: bool

    /** `questionsDatabase`. */
    var questionsDatabase: PerRound<seq<Question>>
    /** `editorState`. */
    var editorCategory: Round
    var editorQuestionId: Option<string>
    var isEditing: bool

    /**
     * Each team's total is the sum of its round scores; all points come from
     * correct answers (1 each) and quick answers (1 more each); quick answers are
     * correct answers, which are answers.
     */
    ghost predicate Valid()
      reads this
    {
      && teamAScore == RoundSum(roundScores, A)
      && teamBScore == RoundSum(roundScores, B)
      && teamAScore + teamBScore == correctAnswers + quickAnswers
      && quickAnswers <= correctAnswers <= totalAnswers
    }

    /**
     * The state `loadQuestion` leaves for position `p`: on a question it is
     * shown, the latch is open and a fresh 30-second timer runs; at the end the
     * results screen is shown and the question and timer are as before.
     */
    twostate predicate Landed(p: Position, now: int)
      reads this
    {
      LandedOn(p, now, old(currentScreen))
    }

    /** `Landed`, with `screen` as the screen shown while a question is open. */
    twostate predicate LandedOn(p: Position, now: int, screen: Screen)
      reads this
    {
      && currentRoundIndex == p.roundIndex && currentRound == p.round && currentQuestionIndex == p.index
      && (p.finished ==>
            && currentScreen == ResultsScreen
            && currentQuestion == old(currentQuestion) && questionStartTime == old(questionStartTime)
            && inputLocked == old(inputLocked) && timerRunning == old(timerRunning) && timeLeft == old(timeLeft))
      && (!p.finished ==>
            && currentScreen == screen
            && p.index < |questionsDatabase.Get(p.round)|
            && currentQuestion == Some(questionsDatabase.Get(p.round)[p.index])
            && questionStartTime == now && !inputLocked && timerRunning && timeLeft == TimerSeconds)
    }

    /** The initial `gameState` and `editorState`, over the stored question bank `database`. */
    constructor (database: PerRound<seq<Question>>)
      ensures Valid()
      ensures currentScreen == IntroScreen && currentTeam == A && currentRound == Countries
      ensures currentRoundIndex == 0 && currentQuestionIndex == 0 && !inputLocked && !timerRunning
      ensures teamAName == DefaultTeamAName && teamBName == DefaultTeamBName
      ensures teamAScore == 0 && teamBScore == 0 && roundScores == ZeroTable()
      ensures correctAnswers == 0 && totalAnswers == 0 && quickAnswers == 0 && totalTimeMs == 0
      ensures timeLeft == TimerSeconds && currentQuestion == None
      ensures questionsDatabase == database
      ensures editorCategory == Countries && editorQuestionId == None && !isEditing
    {
      currentScreen := IntroScreen;
      currentTeam := A;
      currentRound := Countries;
      currentQuestionIndex := 0;
      teamAName := DefaultTeamAName;
      teamBName := DefaultTeamBName;
      teamAScore, teamBScore := 0, 0;
      timerRunning := false;
      timeLeft := TimerSeconds;
      currentQuestion := None;
      questionStartTime := 0;
      currentRoundIndex := 0;
      correctAnswers, totalAnswers, quickAnswers, totalTimeMs := 0, 0, 0, 0;
      roundScores := ZeroTable();
      inputLocked := false;
      warning := false;
      questionsDatabase := database;
      editorCategory := Countries;
      editorQuestionId := None;
      isEditing := false;
    }

    /** `startGame`: empty name fields fall back to the default names. */
    method StartGame(nameA: string, nameB: string)
      modifies this`teamAName, this`teamBName, this`currentScreen
      ensures teamAName == (if nameA == [] then DefaultTeamAName else nameA)
      ensures teamBName == (if nameB == [] then DefaultTeamBName else nameB)
      ensures currentScreen == InstructionsScreen
    {
      teamAName := if nameA == [] then DefaultTeamAName else nameA;
      teamBName := if nameB == [] then DefaultTeamBName else nameB;
      currentScreen := InstructionsScreen;
    }

    /** `showInstructions`: the game screen opens and the current round starts. */
    method ShowInstructions(now: int)
      requires currentRoundIndex < |Rounds|
      modifies this`currentScreen, this`currentRound, this`currentRoundIndex, this`currentQuestionIndex,
        this`currentQuestion, this`questionStartTime, this`inputLocked, this`timerRunning, this`timeLeft
      ensures LandedOn(Settle(questionsDatabase, old(currentRoundIndex), Rounds[old(currentRoundIndex)], 0), now, GameScreen)
    {
      currentScreen := GameScreen;
      StartNewRound(now);
    }

    /** `startNewRound`: question 0 of round number `currentRoundIndex`. */
    method StartNewRound(now: int)
      requires currentRoundIndex < |Rounds|
      modifies this`currentScreen, this`currentRound, this`currentRoundIndex, this`currentQuestionIndex,
        this`currentQuestion, this`questionStartTime, this`inputLocked, this`timerRunning, this`timeLeft
      ensures Landed(Settle(questionsDatabase, old(currentRoundIndex), Rounds[old(currentRoundIndex)], 0), now)
      decreases |Rounds| - currentRoundIndex, 2
    {
      currentQuestionIndex := 0;
      currentRound := Rounds[currentRoundIndex];
      LoadQuestion(now);
    }

    /** `loadQuestion`: show the current question, or move on when the round is exhausted. */
    method LoadQuestion(now: int)
      modifies this`currentScreen, this`currentRound, this`currentRoundIndex, this`currentQuestionIndex,
        this`currentQuestion, this`questionStartTime, this`inputLocked, this`timerRunning, this`timeLeft
      ensures Landed(Settle(questionsDatabase, old(currentRoundIndex), old(currentRound), old(currentQuestionIndex)), now)
      decreases if currentRoundIndex <= |Rounds| then |Rounds| - currentRoundIndex else 0, 1
    {
      var questions := questionsDatabase.Get(currentRound);
      if currentQuestionIndex >= |questions| {
        NextRound(now);
        return;
      }
      currentQuestion := Some(questions[currentQuestionIndex]);
      questionStartTime := now;
      inputLocked := false;
      StartTimer();
    }

    /** `nextQuestion`. */
    method NextQuestion(now: int)
      modifies this`currentScreen, this`currentRound, this`currentRoundIndex, this`currentQuestionIndex,
        this`currentQuestion, this`questionStartTime, this`inputLocked, this`timerRunning, this`timeLeft
      ensures Landed(Settle(questionsDatabase, old(currentRoundIndex), old(currentRound), old(currentQuestionIndex) + 1), now)
    {
      currentQuestionIndex := currentQuestionIndex + 1;
      LoadQuestion(now);
    }

    /** `nextRound`: the round number advances; past the last round the results are shown. */
    method NextRound(now: int)
      modifies this`currentScreen, this`currentRound, this`currentRoundIndex, this`currentQuestionIndex,
        this`currentQuestion, this`questionStartTime, this`inputLocked, this`timerRunning, this`timeLeft
      ensures Landed(AfterRound(questionsDatabase, old(currentRoundIndex) + 1, old(currentRound), old(currentQuestionIndex)), now)
      decreases if currentRoundIndex <= |Rounds| then |Rounds| - currentRoundIndex else 0, 0
    {
      currentRoundIndex := currentRoundIndex + 1;
      if currentRoundIndex >= |Rounds| {
        currentScreen := ResultsScreen;
      } else {
        StartNewRound(now);
      }
    }

    /** `startTimer`: 30 seconds on a fresh interval (any earlier one is cleared). */
    method StartTimer()
      modifies this`timeLeft, this`timerRunning
      ensures timeLeft == TimerSeconds && timerRunning
    {
      timeLeft := TimerSeconds;
      timerRunning := true;
    }

    /** `stopTimer`: the interval is cleared and the warning class removed. */
    method StopTimer()
      modifies this`timerRunning, this`warning
      ensures !timerRunning && !warning
    {
      timerRunning := false;
      warning := false;
    }

    /**
     * `selectAnswer(answerIndex)` at clock `now`. The timer always stops. Once
     * the latch is set the call changes nothing else; otherwise it sets the latch,
     * counts one answer and its time, scores 0 for a wrong answer or the timeout
     * sentinel -1, 1 for a correct answer and 2 for a correct answer within 10
     * seconds, adds the points to the current round's entry and to the total of
     * the team on turn, and passes the turn to the other team.
     */
    method SelectAnswer(answerIndex: int, now: int)
      requires Valid() && currentQuestion.Some?
      modifies this`timerRunning, this`warning, this`inputLocked, this`totalAnswers, this`totalTimeMs,
        this`correctAnswers, this`quickAnswers, this`roundScores, this`teamAScore, this`teamBScore, this`currentTeam
      ensures Valid()
      ensures !timerRunning && !warning && inputLocked
      ensures old(inputLocked) ==>
        && totalAnswers == old(totalAnswers) && totalTimeMs == old(totalTimeMs)
        && correctAnswers == old(correctAnswers) && quickAnswers == old(quickAnswers)
        && roundScores == old(roundScores) && teamAScore == old(teamAScore) && teamBScore == old(teamBScore)
        && currentTeam == old(currentTeam)
      ensures !old(inputLocked) ==>
        var isCorrect := answerIndex == currentQuestion.value.correct;
        var elapsed := now - questionStartTime;
        var points := if !isCorrect then 0 else if elapsed < QuickAnswerMs then 2 else 1;
        && totalAnswers == old(totalAnswers) + 1
        && totalTimeMs == old(totalTimeMs) + elapsed
        && correctAnswers == old(correctAnswers) + (if isCorrect then 1 else 0)
        && quickAnswers == old(quickAnswers) + (if points == 2 then 1 else 0)
        && roundScores == (if isCorrect then old(roundScores).Set(currentRound, old(roundScores).Get(currentRound).Add(old(currentTeam), points))
                           else old(roundScores))
        && teamAScore == old(teamAScore) + (if old(currentTeam) == A then points else 0)
        && teamBScore == old(teamBScore) + (if old(currentTeam) == B then points else 0)
        && currentTeam == Other(old(currentTeam))
    {
      StopTimer();
      if inputLocked {
        return;
      }
      inputLocked := true;
      var timeTaken := now - questionStartTime;
      var isCorrect := answerIndex == currentQuestion.value.correct;
      totalAnswers := totalAnswers + 1;
      totalTimeMs := totalTimeMs + timeTaken;
      if isCorrect {
        correctAnswers := correctAnswers + 1;
        var points := 1;
        if timeTaken < QuickAnswerMs {
          points := 2;
          quickAnswers := quickAnswers + 1;
        }
        AwardPoints(points);
      }
      // The turn passes after the 1200 ms presentation delay.
      currentTeam := Other(currentTeam);
    }

    /** Adds `points` to the current round's entry and to the total of the team on turn. */
    method AwardPoints(points: nat)
      requires teamAScore == RoundSum(roundScores, A) && teamBScore == RoundSum(roundScores, B)
      modifies this`roundScores, this`teamAScore, this`teamBScore
      ensures teamAScore == RoundSum(roundScores, A) && teamBScore == RoundSum(roundScores, B)
      ensures roundScores == old(roundScores).Set(currentRound, old(roundScores).Get(currentRound).Add(currentTeam, points))
      ensures teamAScore == old(teamAScore) + (if currentTeam == A then points else 0)
      ensures teamBScore == old(teamBScore) + (if currentTeam == B then points else 0)
    {
      RoundSumAdd(roundScores, currentRound, currentTeam, points);
      roundScores := roundScores.Set(currentRound, roundScores.Get(currentRound).Add(currentTeam, points));
      if currentTeam == A {
        teamAScore := teamAScore + points;
      } else {
        teamBScore := teamBScore + points;
      }
    }

    /**
     * One second of the interval timer: the time drops by one and the warning
     * class appears at 5 seconds or less; at 0 the timer stops and, unless an
     * answer already set the latch, the question is answered with -1, which
     * scores nothing. A cleared timer never ticks.
     */
    method Tick(now: int)
      requires Valid() && (timerRunning ==> currentQuestion.Some?)
      modifies this`timeLeft, this`timerRunning, this`warning, this`inputLocked, this`totalAnswers, this`totalTimeMs,
        this`correctAnswers, this`quickAnswers, this`roundScores, this`teamAScore, this`teamBScore, this`currentTeam
      ensures Valid()
      ensures !old(timerRunning) ==> unchanged(this)
      ensures old(timerRunning) ==> timeLeft == old(timeLeft) - 1
      ensures old(timerRunning) && timeLeft > 0 ==>
        && timerRunning && warning == (old(warning) || timeLeft <= 5)
        && inputLocked == old(inputLocked) && totalAnswers == old(totalAnswers) && totalTimeMs == old(totalTimeMs)
        && currentTeam == old(currentTeam)
      ensures old(timerRunning) && timeLeft <= 0 ==>
        && !timerRunning && !warning && inputLocked
        && totalAnswers == old(totalAnswers) + (if old(inputLocked) then 0 else 1)
        && totalTimeMs == old(totalTimeMs) + (if old(inputLocked) then 0 else now - old(questionStartTime))
        && currentTeam == (if old(inputLocked) then old(currentTeam) else Other(old(currentTeam)))
      ensures correctAnswers == old(correctAnswers) && quickAnswers == old(quickAnswers)
      ensures roundScores == old(roundScores) && teamAScore == old(teamAScore) && teamBScore == old(teamBScore)
    {
      if !timerRunning {
        return;
      }
      timeLeft := timeLeft - 1;
      if timeLeft <= 5 {
        warning := true;
      }
      if timeLeft <= 0 {
        StopTimer();
        if !inputLocked {
          SelectAnswer(-1, now);
        }
      }
    }

    /** `resetGame`: scores, counters, round number and turn return to their start values. */
    method ResetGame()
      modifies this`currentScreen, this`currentTeam, this`currentRoundIndex, this`teamAScore, this`teamBScore,
        this`correctAnswers, this`totalAnswers, this`quickAnswers, this`totalTimeMs, this`roundScores
      ensures Valid()
      ensures currentScreen == IntroScreen && currentTeam == A && currentRoundIndex == 0
      ensures teamAScore == 0 && teamBScore == 0 && roundScores == ZeroTable()
      ensures correctAnswers == 0 && totalAnswers == 0 && quickAnswers == 0 && totalTimeMs == 0
    {
      currentScreen := IntroScreen;
      currentTeam := A;
      currentRoundIndex := 0;
      teamAScore, teamBScore := 0, 0;
      correctAnswers, totalAnswers, quickAnswers, totalTimeMs := 0, 0, 0, 0;
      roundScores := ZeroTable();
    }

    /** The winner and saved score that `saveToLeaderboard` uses. */
    function Outcome(): FinalResult
      reads this
    {
      FinalOutcome(teamAName, teamBName, teamAScore, teamBScore)
    }

    /** `backToGame`: the results if any question was answered, the intro otherwise. */
    method BackToGame()
      modifies this`currentScreen
      ensures currentScreen == if totalAnswers > 0 then ResultsScreen else IntroScreen
    {
      currentScreen := if totalAnswers > 0 then ResultsScreen else IntroScreen;
    }

    /** `showEditor`: the editor opens on the first category with an empty form. */
    method ShowEditor()
      modifies this`currentScreen, this`editorCategory, this`isEditing, this`editorQuestionId
      ensures currentScreen == EditorScreen
      ensures editorCategory == Countries && !isEditing && editorQuestionId == None
    {
      currentScreen := EditorScreen;
      ShowEditorCategory(Countries);
    }

    /** `showEditorCategory`: a category is chosen and the form is cleared. */
    method ShowEditorCategory(category: Round)
      modifies this`editorCategory, this`isEditing, this`editorQuestionId
      ensures editorCategory == category && !isEditing && editorQuestionId == None
    {
      editorCategory := category;
      ClearQuestionForm();
    }

    /**
     * `clearQuestionForm` (also the whole of `addNewQuestion`): the form is for a
     * new question again; the question lists are untouched.
     */
    method ClearQuestionForm()
      modifies this`isEditing, this`editorQuestionId
      ensures !isEditing && editorQuestionId == None
    {
      isEditing := false;
      editorQuestionId := None;
    }

    /**
     * `resetToDefault`: once confirmed, the bank becomes the built-in `defaults`
     * and the form is cleared; without confirmation nothing changes.
     */
    method ResetToDefault(defaults: PerRound<seq<Question>>, confirmed: bool)
      modifies this`questionsDatabase, this`isEditing, this`editorQuestionId
      ensures !confirmed ==> unchanged(this)
      ensures confirmed ==> questionsDatabase == defaults && !isEditing && editorQuestionId == None
    {
      if confirmed {
        questionsDatabase := defaults;
        ClearQuestionForm();
      }
    }

    /** `loadQuestionToForm`: a question of the current category becomes the one being edited. */
    method LoadQuestionToForm(questionId: string)
      modifies this`isEditing, this`editorQuestionId
      ensures FindIndex(questionsDatabase.Get(editorCategory), questionId).Some? ==>
        isEditing && editorQuestionId == Some(questionId)
      ensures FindIndex(questionsDatabase.Get(editorCategory), questionId).None? ==>
        isEditing == old(isEditing) && editorQuestionId == old(editorQuestionId)
    {
      var found := FindIndex(questionsDatabase.Get(editorCategory), questionId);
      if found.Some? {
        isEditing := true;
        editorQuestionId := Some(questionId);
      }
    }

    /**
     * The editor's `saveQuestion` on the form's raw fields. A blank trimmed text
     * or option leaves everything unchanged and returns false. Otherwise the
     * category's list becomes its `SavedList` (an edit when a question is being
     * edited, an addition with id `newId` otherwise) and the form is cleared.
     */
    method SaveQuestion(rawText: string, rawOptions: seq<string>, correct: nat, newId: string)
      returns (saved: bool)
      modifies this`questionsDatabase, this`isEditing, this`editorQuestionId
      ensures saved == (Trim(rawText) != [] && AllFilled(TrimAll(rawOptions)))
      ensures !saved ==> unchanged(this)
      ensures saved ==>
        && questionsDatabase == old(questionsDatabase).Set(editorCategory,
             SavedList(old(questionsDatabase).Get(editorCategory),
                       if old(isEditing) && Truthy(old(editorQuestionId)) then old(editorQuestionId) else None,
                       Trim(rawText), TrimAll(rawOptions), correct, newId))
        && !isEditing && editorQuestionId == None
    {
      var text := Trim(rawText);
      var options := TrimAll(rawOptions);
      if text == [] || !AllFilled(options) {
        return false;
      }
      var editing := if isEditing && Truthy(editorQuestionId) then editorQuestionId else None;
      questionsDatabase := questionsDatabase.Set(editorCategory,
        SavedList(questionsDatabase.Get(editorCategory), editing, text, options, correct, newId));
      ClearQuestionForm();
      return true;
    }

    /**
     * The editor's `deleteQuestion`: without a selected question nothing happens;
     * when the user confirms, every question of the category with the selected id
     * is removed and the form is cleared.
     */
    method DeleteQuestion(confirmed: bool)
      modifies this`questionsDatabase, this`isEditing, this`editorQuestionId
      ensures !(old(isEditing) && Truthy(old(editorQuestionId)) && confirmed) ==> unchanged(this)
      ensures old(isEditing) && Truthy(old(editorQuestionId)) && confirmed ==>
        && questionsDatabase == old(questionsDatabase).Set(editorCategory,
             WithoutId(old(questionsDatabase).Get(editorCategory), old(editorQuestionId).value))
        && !isEditing && editorQuestionId == None
    {
      if !isEditing || !Truthy(editorQuestionId) {
        return;
      }
      if confirmed {
        questionsDatabase := questionsDatabase.Set(editorCategory,
          WithoutId(questionsDatabase.Get(editorCategory), editorQuestionId.value));
        ClearQuestionForm();
      }
    }
  }
}
