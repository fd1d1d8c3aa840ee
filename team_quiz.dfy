/**
 * The open multi-team competition (js/game.js): teams are created on a setup
 * screen, questions are dealt round-robin, each question is answered by the team
 * that owns it, a correct answer scores a flat 10 points, and the final standings
 * are the teams sorted by score with medals for the first three places.
 */
module TeamQuiz {
  import opened Seqs
  import opened Sorting
  import opened Text
  import opened QuestionAssignment

  datatype Team = Team(name: string, score: nat, id: nat)

  datatype Question = Question(text: string, options: seq<string>, correct: nat)

  /** Which container of the page is on screen. */
  datatype View = Intro | TeamCreation | Playing | EndGame

  /** The `warning` / `danger` classes of the timer container. */
  datatype TimerStyle = Plain | Warning | Danger

  const TotalTime: int := 30
  const CorrectPoints: nat := 10

  /** The style the timer shows after a tick leaves `t` seconds (lines 344-350). */
  function StyleAfterTick(t: int, current: TimerStyle): (r: TimerStyle)
    ensures r == Warning <==> 5 < t <= 10 || (t > 10 && current == Warning)
    ensures r == Danger <==> t <= 5 || (t > 10 && current == Danger)
    ensures t > 10 ==> r == current
  {
    if t <= 10 && t > 5 then Warning
    else if t <= 5 then Danger
    else current
  }

  function ScoreOf(t: Team): int
  {
    t.score
  }

  datatype Medal = Gold | Silver | Bronze | NoMedal

  /** One line of the final scores: a team, its place, its medal and how many questions it took. */
  datatype Standing = Standing(team: Team, rank: nat, medal: Medal, questionsAnswered: nat)

  function MedalFor(index: nat): Medal
  {
    if index == 0 then Gold else if index == 1 then Silver else if index == 2 then Bronze else NoMedal
  }

  /** `teamQuestionCounts[team.id] || 0`. */
  function AnsweredBy(counts: seq<nat>, id: nat): nat
  {
    if id < |counts| then counts[id] else 0
  }

  /** The final scores of `showResult`: teams sorted by score, rank = position + 1. */
  function Standings(teams: seq<Team>, counts: seq<nat>): (r: seq<Standing>)
  {
    var sorted := SortDesc(teams, ScoreOf);
    seq(|sorted|, i requires 0 <= i < |sorted| =>
      Standing(sorted[i], i + 1, MedalFor(i), AnsweredBy(counts, sorted[i].id)))
  }

  /**
   * The standings list every team once, highest score first, ties in team order,
   * with ranks 1, 2, 3, ..., gold, silver and bronze on the first three places
   * and no medal after them, and each team's own count of answered questions
   * (zero for a team that answered none).
   */
  lemma StandingsCorrect(teams: seq<Team>, counts: seq<nat>)
    ensures var r := Standings(teams, counts);
      && |r| == |teams|
      && multiset(seq(|r|, i requires 0 <= i < |r| => r[i].team)) == multiset(teams)
      && (forall i, j :: 0 <= i < j < |r| ==> r[i].team.score >= r[j].team.score)
      && (forall k :: WithKey(seq(|r|, i requires 0 <= i < |r| => r[i].team), ScoreOf, k) == WithKey(teams, ScoreOf, k))
      && (forall i :: 0 <= i < |r| ==> r[i].rank == i + 1)
      && (forall i :: 0 <= i < |r| ==> (r[i].medal != NoMedal <==> i < 3))
      && (|r| > 0 ==> r[0].medal == Gold)
      && (|r| > 1 ==> r[1].medal == Silver)
      && (|r| > 2 ==> r[2].medal == Bronze)
      && (forall i :: 0 <= i < |r| ==>
            r[i].questionsAnswered == (if r[i].team.id < |counts| then counts[r[i].team.id] else 0))
  {
    var r := Standings(teams, counts);
    var sorted := SortDesc(teams, ScoreOf);
    assert seq(|r|, i requires 0 <= i < |r| => r[i].team) == sorted;
    SortDescSorted(teams, ScoreOf);
    forall k ensures WithKey(sorted, ScoreOf, k) == WithKey(teams, ScoreOf, k) {
      SortDescStable(teams, ScoreOf, k);
    }
  }

  /** The announced winner (`sortedTeams[0]`) has the highest score of all teams. */
  lemma WinnerHasTopScore(teams: seq<Team>, counts: seq<nat>)
    requires |teams| > 0
    ensures |Standings(teams, counts)| == |teams|
    ensures var w := Standings(teams, counts)[0].team;
      w in teams && forall t :: t in teams ==> w.score >= t.score
  {
    var sorted := SortDesc(teams, ScoreOf);
    SortDescSorted(teams, ScoreOf);
    assert sorted[0] in multiset(teams);
    forall t | t in teams ensures sorted[0].score >= t.score {
      assert t in multiset(sorted);
      var j :| 0 <= j < |sorted| && sorted[j] == t;
      assert j == 0 || ScoreOf(sorted[0]) >= ScoreOf(sorted[j]);
    }
  }

  class Quiz {
    var view: View
    var teams: seq<Team>
    var currentTeamIndex: nat
    var currentQuestionIndex: nat
    var allQuestions: seq<Question>
    var teamQuestionCounts: seq<nat>
    var teamQuestionAssignments: seq<seq<nat>>
    var timerRunning: bool
    var timeLeft: int
    var timerStyle: TimerStyle
    /** The options are disabled, "next" is shown and "skip" is hidden. */
    var answered: bool

    /**
     * Team ids are their positions; scores are multiples of 10 and start at 0;
     * during and after play the plan is the round-robin plan, the turn belongs to
     * the owner of the current question, no team scored more than 10 per question
     * it took, and at most one question count was added per question shown.
     */
    ghost predicate Valid()
      reads this
    {
      && (forall i :: 0 <= i < |teams| ==> teams[i].id == i && teams[i].score % CorrectPoints == 0)
      && (view == Intro || view == TeamCreation ==>
            (forall i :: 0 <= i < |teams| ==> teams[i].score == 0) && !timerRunning)
      && (view == Playing || view == EndGame ==> InPlay())
    }

    ghost predicate InPlay()
      reads this
    {
      && |teams| > 0
      && |teamQuestionCounts| == |teams|
      && teamQuestionAssignments == Plan(|teams|, |allQuestions|)
      && (forall i :: 0 <= i < |teams| ==> teams[i].score <= CorrectPoints * teamQuestionCounts[i])
      && (view == Playing ==>
            && currentQuestionIndex < |allQuestions|
            && currentTeamIndex == currentQuestionIndex % |teams|
            && Sum(teamQuestionCounts) <= currentQuestionIndex + (if answered then 1 else 0)
            && (timerRunning ==> !answered))
      && (view == EndGame ==>
            && currentQuestionIndex == |allQuestions|
            && Sum(teamQuestionCounts) <= |allQuestions|
            && !timerRunning)
    }

    /** The page after `loadQuestions` has fetched `questions`. */
    constructor (questions: seq<Question>)
      ensures Valid() && view == Intro
      ensures teams == [] && allQuestions == questions && !timerRunning
    {
      view := Intro;
      teams := [];
      currentTeamIndex := 0;
      currentQuestionIndex := 0;
      allQuestions := questions;
      teamQuestionCounts := [];
      teamQuestionAssignments := [];
      timerRunning := false;
      timeLeft := TotalTime;
      timerStyle := Plain;
      answered := false;
    }

    /** The intro screen's start button. */
    method ShowTeamCreation()
      requires Valid() && view == Intro
      modifies this`view
      ensures Valid() && view == TeamCreation
    {
      view := TeamCreation;
    }

    /** `addTeamBtn`: a non-blank trimmed name adds a team with score 0 and id = its position. */
    method AddTeam(rawName: string)
      requires Valid() && view == TeamCreation
      modifies this`teams
      ensures Valid()
      ensures teams == if Trim(rawName) == [] then old(teams)
                       else old(teams) + [Team(Trim(rawName), 0, |old(teams)|)]
    {
      var name := Trim(rawName);
      if name != [] {
        teams := teams + [Team(name, 0, |teams|)];
      }
    }

    /**
     * `initializeQuestionAssignments`: with no teams nothing is built; otherwise
     * every count is zero and question `i` is dealt to team `i % teams.length`.
     */
    method InitializeQuestionAssignments()
      modifies this`teamQuestionCounts, this`teamQuestionAssignments
      ensures |teams| == 0 ==>
        teamQuestionCounts == old(teamQuestionCounts) && teamQuestionAssignments == old(teamQuestionAssignments)
      ensures |teams| > 0 ==>
        && teamQuestionCounts == Zeros(|teams|)
        && teamQuestionAssignments == Plan(|teams|, |allQuestions|)
    {
      if |teams| == 0 {
        return;
      }
      teamQuestionCounts := Zeros(|teams|);
      teamQuestionAssignments := seq(|teams|, _ => []);
      assert teamQuestionAssignments == Plan(|teams|, 0);
      var i := 0;
      while i < |allQuestions|
        invariant 0 <= i <= |allQuestions|
        invariant teamQuestionCounts == Zeros(|teams|)
        invariant teamQuestionAssignments == Plan(|teams|, i)
      {
        var teamIndex := i % |teams|;
        PlanStep(|teams|, i);
        teamQuestionAssignments := teamQuestionAssignments[teamIndex := teamQuestionAssignments[teamIndex] + [i]];
        i := i + 1;
      }
    }

    /**
     * The turn lookup of `startQuiz` and `moveToNextQuestion`: the first team
     * whose list contains `q`, if any.
     */
    method FindOwner(q: nat) returns (found: bool, index: nat)
      ensures found ==> index < |teamQuestionAssignments| && q in teamQuestionAssignments[index]
      ensures found ==> forall j :: 0 <= j < index ==> q !in teamQuestionAssignments[j]
      ensures !found ==> forall j :: 0 <= j < |teamQuestionAssignments| ==> q !in teamQuestionAssignments[j]
    {
      found, index := false, 0;
      var i := 0;
      while i < |teamQuestionAssignments|
        invariant 0 <= i <= |teamQuestionAssignments|
        invariant forall j :: 0 <= j < i ==> q !in teamQuestionAssignments[j]
      {
        if q in teamQuestionAssignments[i] {
          found, index := true, i;
          return;
        }
        i := i + 1;
      }
    }

    /** `startGameBtn`: build the plan, switch to the game and start at question 0. */
    method StartGame()
      requires Valid() && view == TeamCreation
      requires |teams| > 0 && |allQuestions| > 0
      modifies this
      ensures Valid() && view == Playing
      ensures teams == old(teams) && allQuestions == old(allQuestions)
      ensures teamQuestionAssignments == Plan(|teams|, |allQuestions|)
      ensures teamQuestionCounts == Zeros(|teams|)
      ensures currentQuestionIndex == 0 && currentTeamIndex == 0
      ensures !answered && timerRunning && timeLeft == TotalTime && timerStyle == Plain
    {
      InitializeQuestionAssignments();
      SumZeros(|teams|);
      view := Playing;
      currentQuestionIndex := 0;
      currentTeamIndex := 0;
      var found, index := FindOwner(currentQuestionIndex);
      if found {
        currentTeamIndex := index;
      }
      PlanPartition(|teams|, |allQuestions|, 0);
      ShowQuestion();
    }

    /** `showQuestion`: fresh enabled options, timer reset and started. */
    method ShowQuestion()
      requires currentQuestionIndex < |allQuestions|
      modifies this`answered, this`timerStyle, this`timeLeft, this`timerRunning
      ensures !answered && timerRunning && timeLeft == TotalTime && timerStyle == Plain
    {
      answered := false;
      timerStyle := Plain;
      StartTimer();
    }

    method StartTimer()
      modifies this`timeLeft, this`timerStyle, this`timerRunning
      ensures timerRunning && timeLeft == TotalTime && timerStyle == Plain
    {
      timeLeft := TotalTime;
      timerStyle := Plain;
      timerRunning := true;
    }

    method StopTimer()
      modifies this`timerRunning
      ensures !timerRunning
    {
      timerRunning := false;
    }

    /**
     * A click on option `option`. Once the question is answered the buttons are
     * disabled and the click has no effect; otherwise the current team gains 10
     * points exactly when the option is the correct one, and its answered count
     * grows by one. No other team changes. Only the shown buttons can be
     * clicked, so `option` is one of the question's options.
     */
    method SelectAnswer(option: nat)
      requires Valid() && view == Playing
      requires option < |allQuestions[currentQuestionIndex].options|
      modifies this`teams, this`teamQuestionCounts, this`answered, this`timerRunning
      ensures Valid()
      ensures old(answered) ==>
        teams == old(teams) && teamQuestionCounts == old(teamQuestionCounts) && answered && timerRunning == old(timerRunning)
      ensures !old(answered) ==>
        var t := currentTeamIndex;
        var gained := if option == allQuestions[currentQuestionIndex].correct then CorrectPoints else 0;
        && answered && !timerRunning
        && teams == old(teams)[t := old(teams)[t].(score := old(teams)[t].score + gained)]
        && teamQuestionCounts == old(teamQuestionCounts)[t := old(teamQuestionCounts)[t] + 1]
    {
      if answered {
        return;
      }
      StopTimer();
      var t := currentTeamIndex;
      var gained := if option == allQuestions[currentQuestionIndex].correct then CorrectPoints else 0;
      var newTeams := teams[t := teams[t].(score := teams[t].score + gained)];
      var newCounts := teamQuestionCounts[t := teamQuestionCounts[t] + 1];
      assert forall i :: 0 <= i < |newTeams| ==>
        newTeams[i].id == i && newTeams[i].score % CorrectPoints == 0 && newTeams[i].score <= CorrectPoints * newCounts[i];
      SumUpdate(teamQuestionCounts, t, 1);
      teams := newTeams;
      teamQuestionCounts := newCounts;
      answered := true;
    }

    /** `handleTimeOut`: the current team's count grows by one and no score changes. */
    method HandleTimeOut()
      requires Valid() && view == Playing && !answered && !timerRunning
      modifies this`teamQuestionCounts, this`answered
      ensures Valid() && answered
      ensures teamQuestionCounts == old(teamQuestionCounts)[currentTeamIndex := old(teamQuestionCounts)[currentTeamIndex] + 1]
    {
      SumUpdate(teamQuestionCounts, currentTeamIndex, 1);
      teamQuestionCounts := teamQuestionCounts[currentTeamIndex := teamQuestionCounts[currentTeamIndex] + 1];
      answered := true;
    }

    /**
     * One second of the interval timer: the time drops by one, the style follows
     * the thresholds, and at zero the timer stops and the timeout is handled. A
     * cleared timer never ticks.
     */
    method Tick()
      requires Valid()
      modifies this`timeLeft, this`timerStyle, this`timerRunning, this`teamQuestionCounts, this`answered
      ensures Valid() && teams == old(teams)
      ensures !old(timerRunning) ==>
        timeLeft == old(timeLeft) && timerStyle == old(timerStyle) && !timerRunning
        && teamQuestionCounts == old(teamQuestionCounts) && answered == old(answered)
      ensures old(timerRunning) ==>
        && timeLeft == old(timeLeft) - 1
        && timerStyle == StyleAfterTick(timeLeft, old(timerStyle))
        && (timeLeft > 0 ==> timerRunning && teamQuestionCounts == old(teamQuestionCounts) && answered == old(answered))
        && (timeLeft <= 0 ==>
              && !timerRunning && answered
              && teamQuestionCounts == old(teamQuestionCounts)[currentTeamIndex := old(teamQuestionCounts)[currentTeamIndex] + 1])
    {
      if !timerRunning {
        return;
      }
      timeLeft := timeLeft - 1;
      timerStyle := StyleAfterTick(timeLeft, timerStyle);
      if timeLeft <= 0 {
        timerRunning := false;
        HandleTimeOut();
      }
    }

    /**
     * The state `moveToNextQuestion` leaves: teams, counts, questions and plan
     * as before, the next index, and either the end view with the timer stopped
     * and the turn where it was, or the owner of the new index (`index % teams`)
     * on turn with the new question open and a fresh plain 30-second timer.
     */
    twostate predicate MovedOn()
      reads this
    {
      && teams == old(teams) && teamQuestionCounts == old(teamQuestionCounts)
      && allQuestions == old(allQuestions) && teamQuestionAssignments == old(teamQuestionAssignments)
      && currentQuestionIndex == old(currentQuestionIndex) + 1
      && view == (if currentQuestionIndex >= |allQuestions| then EndGame else Playing)
      && (view == Playing ==>
            && |teams| > 0 && currentTeamIndex == currentQuestionIndex % |teams|
            && !answered && timerRunning && timeLeft == TotalTime && timerStyle == Plain)
      && (view == EndGame ==> !timerRunning && currentTeamIndex == old(currentTeamIndex))
    }

    /**
     * `moveToNextQuestion`: the index advances; past the last question the game
     * ends, otherwise the turn goes to the owner of the new index (the round-robin
     * fallback gives the same team) and the question is shown.
     */
    method MoveToNextQuestion()
      requires Valid() && view == Playing
      modifies this
      ensures Valid() && MovedOn()
    {
      StopTimer();
      currentQuestionIndex := currentQuestionIndex + 1;
      if currentQuestionIndex >= |allQuestions| {
        view := EndGame;
        return;
      }
      var found, index := FindOwner(currentQuestionIndex);
      PlanPartition(|teams|, |allQuestions|, currentQuestionIndex);
      var team: nat := currentQuestionIndex % |teams|;
      if found {
        team := index;
      }
      currentTeamIndex := team;
      ShowQuestion();
    }

    /** `skipTeamBtn`: shown only while unanswered; moves on without scoring or counting. */
    method Skip()
      requires Valid() && view == Playing
      modifies this
      ensures Valid()
      ensures old(answered) ==> unchanged(this)
      ensures !old(answered) ==> MovedOn()
    {
      if answered {
        return;
      }
      MoveToNextQuestion();
    }

    /** `nextBtn`: shown only once the question is answered or timed out. */
    method Next()
      requires Valid() && view == Playing
      modifies this
      ensures Valid()
      ensures !old(answered) ==> unchanged(this)
      ensures old(answered) ==> MovedOn()
    {
      if !answered {
        return;
      }
      MoveToNextQuestion();
    }

    /** The final scores shown by `showResult`. */
    function FinalStandings(): (r: seq<Standing>)
      reads this
      requires Valid() && view == EndGame
      ensures |r| == |teams| > 0
      ensures forall t :: t in teams ==> r[0].team.score >= t.score
    {
      WinnerHasTopScore(teams, teamQuestionCounts);
      Standings(teams, teamQuestionCounts)
    }
  }
}
